/**
 Concrete runs.  They show that the assumptions of the leak theorem are needed, and that a
 successful job may carry an old failure count.
 */
module JobRuns {
  import opened Wrappers
  import opened ControlStore
  import opened Platform
  import opened JobMachine
  import opened JobInvariant
  import opened JobTraces
  import opened JobTheorems
  import opened JobEvidence

  function Fine(id: RJobId, snapshot: Snapshot): Answer {
    Answer(Rendered(1, "inputs"), CreateReturns(id), PollReturns(snapshot), ReadyReturns(true), StopReturns)
  }

  function Go(id: RJobId, snapshot: Snapshot): Input {
    Advance(Fine(id, snapshot))
  }

  const NO_SNAPSHOT := Snapshot(RJobUnknown, false, None, None, map[])

  /** A first turn up to the bind call. */
  lemma ReachesBindFiles(cfg: Config, jobId: string, rangeId: string, now: Time, id: RJobId) returns (t: JobState)
    ensures Reaches(cfg, Init(jobId, rangeId, now), t) && t.now == now
    ensures t.core.pc == BindFiles && t.core.ops == Start && t.core.seen == [] && t.core.disk == None
    ensures t.core.row == NewControlJob(jobId, rangeId, now).(status := Preparing, phase := ResolvingJobFiles,
                                                              attempt := 1, version := 3)
  {
    var s := Init(jobId, rangeId, now);
    var go := Go(id, NO_SNAPSHOT);
    ReachesItself(cfg, s);
    t := ReachesNext(cfg, s, s, ListActive);
    t := ReachesNext(cfg, s, t, BeginTurn);
    assert t.core == s.core.(pc := BumpAttempt(0));
    t := ReachesNext(cfg, s, t, go);
    assert t.core.pc == Log(ReconciliationStarted, MarkPreparing);
    t := ReachesNext(cfg, s, t, go);
    t := ReachesNext(cfg, s, t, go);
  }

  /** A first turn up to the gateway create call. */
  lemma ReachesCreateGateway(cfg: Config, jobId: string, rangeId: string, now: Time, id: RJobId) returns (t: JobState)
    ensures Reaches(cfg, Init(jobId, rangeId, now), t) && t.now == now
    ensures t.core.pc == CreateGateway && t.core.ops == Start && t.core.seen == []
    ensures var row := t.core.row;
            row.status == Preparing && !row.cleanup && row.gatewayId.None? && row.gatewayUrl.None? && row.controllerId.None?
            && row.startedAt.None? && row.episodes.failed == 0 && row.createdAt == Stamp(now)
            && row.binding == Some(Binding(jobId, rangeId, 1, "inputs"))
  {
    var s := Init(jobId, rangeId, now);
    var go := Go(id, NO_SNAPSHOT);
    t := ReachesBindFiles(cfg, jobId, rangeId, now, id);
    t := ReachesNext(cfg, s, t, go);
    assert t.core.pc == SaveBinding(Binding(jobId, rangeId, 1, "inputs"));
    t := ReachesNext(cfg, s, t, go);
    t := ReachesNext(cfg, s, t, go);
    assert t.core.pc == CheckBeforeGateway;
    t := ReachesNext(cfg, s, t, go);
  }

  lemma SweepStarts(cfg: Config, s: JobState, t: JobState) returns (mid: JobState)
    requires Reaches(cfg, s, t) && t.core.pc == Idle && t.core.row.cleanup
    ensures Reaches(cfg, s, mid) && mid.core == t.core.(pc := CleanRead(InSweep))
  {
    mid := ReachesNext(cfg, s, t, ListCleanup);
    assert mid.core == t.core && mid.swept;
    mid := ReachesNext(cfg, s, mid, BeginSweep);
  }

  lemma AwaitAt(cfg: Config, s: JobState, t: JobState, a: Answer) returns (next: JobState)
    requires Reaches(cfg, s, t)
    ensures Reaches(cfg, s, next) && next.now == t.now && next.core == StepCore(cfg, t.core, t.now, a)
  {
    next := ReachesNext(cfg, s, t, Advance(a));
  }

  lemma SweepReads(cfg: Config, s: JobState, t: JobState) returns (next: JobState)
    requires Reaches(cfg, s, t) && t.core.pc == CleanRead(InSweep) && t.core.row.status == Closing
    requires t.core.row.gatewayId.None? && t.core.row.controllerId.None?
    ensures Reaches(cfg, s, next) && next.now == t.now
    ensures next.core == t.core.(ops := Then(t.core.ops, CleanupBegan(None, None)), pc := CleanWrite(true, InSweep))
  {
    next := AwaitAt(cfg, s, t, Fine("r", NO_SNAPSHOT));
  }

  lemma SweepWrites(cfg: Config, s: JobState, t: JobState) returns (next: JobState)
    requires Reaches(cfg, s, t) && t.core.pc == CleanWrite(true, InSweep) && t.core.row.status == Closing
    ensures Reaches(cfg, s, next) && next.core.row.status == Closed && !next.core.row.cleanup && next.core.ops == t.core.ops
  {
    next := AwaitAt(cfg, s, t, Fine("r", NO_SNAPSHOT));
  }

  /** A sweep of a closing job without recorded platform jobs closes it at once. */
  lemma SweepCloses(cfg: Config, s: JobState, t: JobState) returns (end: JobState)
    requires Reaches(cfg, s, t) && t.core.pc == Idle
    requires t.core.row.status == Closing && t.core.row.cleanup
    requires t.core.row.gatewayId.None? && t.core.row.controllerId.None?
    ensures Reaches(cfg, s, end) && end.core.row.status == Closed && !end.core.row.cleanup
    ensures Live(end.core.ops) == Live(t.core.ops)
  {
    end := SweepStarts(cfg, s, t);
    end := SweepReads(cfg, s, end);
    end := SweepWrites(cfg, s, end);
  }

  /**
   A crash between a create and the row write, followed by a close, leaks the platform job: the
   job ends closed with its cleanup done, under every configuration, and the gateway still runs.
   */
  lemma CrashBeforeTheRowWriteLeaks(cfg: Config, jobId: string, rangeId: string, now: Time, id: RJobId)
    returns (end: JobState)
    ensures Reaches(cfg, Init(jobId, rangeId, now), end)
    ensures end.core.row.status == Closed && Settled(cfg, end.core.row) && Live(end.core.ops) == {id}
  {
    var s := Init(jobId, rangeId, now);
    end := ReachesCreateGateway(cfg, jobId, rangeId, now, id);
    end := ReachesNext(cfg, s, end, Go(id, NO_SNAPSHOT));
    assert end.core.pc == SaveGateway(id) && end.core.ops == Then(Then(Start, CreateIssued(Gateway)), Created(Gateway, id));
    assert Live(end.core.ops) == {id} by { assert Live(end.core.ops.before) == {}; }
    end := ReachesNext(cfg, s, end, Crash(CannotBind));
    end := ReachesNext(cfg, s, end, CloseRequest);
    end := SweepCloses(cfg, s, end);
  }

  lemma ReachesRaisingCreate(cfg: Config, jobId: string, rangeId: string, now: Time, id: RJobId) returns (t: JobState)
    ensures Reaches(cfg, Init(jobId, rangeId, now), t) && t.now == now && t.core.pc == OnDependencyError
    ensures t.core.row.status == Preparing && t.core.row.gatewayId.None? && t.core.row.controllerId.None?
    ensures t.core.row.createdAt == Stamp(now) && Live(t.core.ops) == {id}
  {
    var s := Init(jobId, rangeId, now);
    var at := ReachesCreateGateway(cfg, jobId, rangeId, now, id);
    var raising := Fine(id, NO_SNAPSHOT).(create := CreateRaises(Dependency, Some(id)));
    t := ReachesNext(cfg, s, at, Advance(raising));
    assert t.core.ops == Then(Then(Start, CreateIssued(Gateway)), Created(Gateway, id));
    assert Live(t.core.ops.before) == {};
  }

  /** So does a create call that takes effect and raises. */
  lemma RaisingCreateLeaks(cfg: Config, jobId: string, rangeId: string, now: Time, id: RJobId) returns (end: JobState)
    requires cfg.gatewayReadyTimeout >= 1
    ensures Reaches(cfg, Init(jobId, rangeId, now), end)
    ensures end.core.row.status == Closed && Settled(cfg, end.core.row) && Live(end.core.ops) == {id}
  {
    var s := Init(jobId, rangeId, now);
    end := ReachesRaisingCreate(cfg, jobId, rangeId, now, id);
    assert !TimedOut(cfg, end.core.row, now);
    end := ReachesNext(cfg, s, end, Go(id, NO_SNAPSHOT));
    assert end.core.pc == Idle;
    end := ReachesNext(cfg, s, end, CloseRequest);
    end := SweepCloses(cfg, s, end);
  }

  // --- A stale failure count ---------------------------------------------------------------------

  /** A running job whose gateway is settled; what the second turn starts from. */
  ghost predicate Supervised(cfg: Config, row: ControlJob, g: Snapshot, now: Time) {
    && row.status == Running && row.gatewayId.Some? && row.controllerId.Some? && row.binding.Some?
    && row.binding.value.totalEpisodes == 1
    && row.gatewayUrl == Some(UrlOf(cfg, g)) && row.startedAt == Some(Stamp(now))
  }

  function Report(snapshot: Snapshot): Answer {
    Fine("r", snapshot)
  }

  /** From a gateway poll to the re-read before the controller, for a gateway that is up. */
  lemma ReachesHealthyGateway(cfg: Config, s: JobState, t: JobState, g: Snapshot) returns (next: JobState)
    requires Reaches(cfg, s, t) && t.core.pc.PollGateway? && GatewayHasRoute(cfg, g)
    requires !Halted(t.core.row)
    ensures Reaches(cfg, s, next) && next.now == t.now && next.core.pc == CheckAfterHealth(g, true)
    ensures next.core.row == t.core.row.(gatewayStatus := Some(g.state), updatedAt := Stamp(t.now),
                                         version := t.core.row.version + 1)
  {
    next := AwaitAt(cfg, s, t, Report(g));
    next := AwaitAt(cfg, s, next, Report(g));
    next := AwaitAt(cfg, s, next, Report(g));
  }

  lemma ReachesFirstUrl(cfg: Config, s: JobState, t: JobState, g: Snapshot) returns (next: JobState)
    requires Reaches(cfg, s, t) && t.core.pc == CheckAfterHealth(g, true)
    requires !Halted(t.core.row) && t.core.row.gatewayUrl.None?
    ensures Reaches(cfg, s, next) && next.now == t.now && next.core.pc == CheckBeforeController(g)
    ensures next.core.row == t.core.row.(gatewayUrl := Some(UrlOf(cfg, g)), gatewayReadyAt := Some(Stamp(t.now)),
                                         phase := SubmittingSafactoryRJob, updatedAt := Stamp(t.now),
                                         version := t.core.row.version + 1)
  {
    next := AwaitAt(cfg, s, t, Report(g));
    next := AwaitAt(cfg, s, next, Report(g));
    next := AwaitAt(cfg, s, next, Report(g));
  }

  lemma ReachesSaveController(cfg: Config, s: JobState, t: JobState, g: Snapshot) returns (next: JobState)
    requires Reaches(cfg, s, t) && t.core.pc == CheckBeforeController(g)
    requires !Halted(t.core.row) && t.core.row.controllerId.None? && t.core.row.startedAt.None?
    requires t.core.row.gatewayUrl.Some?
    ensures Reaches(cfg, s, next) && next.now == t.now
    ensures next.core.pc == SaveController(None, g, "r", t.now) && next.core.row == t.core.row
  {
    next := AwaitAt(cfg, s, t, Report(g));
    next := AwaitAt(cfg, s, next, Report(g));
  }

  lemma ReachesController(cfg: Config, s: JobState, t: JobState, g: Snapshot) returns (next: JobState)
    requires Reaches(cfg, s, t) && t.core.pc == CheckBeforeController(g) && GatewayHasRoute(cfg, g)
    requires !Halted(t.core.row) && t.core.row.controllerId.None? && t.core.row.startedAt.None?
    requires t.core.row.gatewayUrl.Some?
    ensures Reaches(cfg, s, next) && next.now == t.now
    ensures next.core.pc == PollController("r", next.core.row.episodes, g)
    ensures next.core.row == t.core.row.(controllerId := Some("r"), controllerStatus := Some(RJobPending),
                                         status := Running, phase := RunningSafactory,
                                         startedAt := Some(Stamp(t.now)), updatedAt := Stamp(t.now),
                                         version := t.core.row.version + 1)
  {
    next := ReachesSaveController(cfg, s, t, g);
    next := AwaitAt(cfg, s, next, Report(g));
    next := AwaitAt(cfg, s, next, Report(g));
  }

  lemma ReachesCounts(cfg: Config, s: JobState, t: JobState, c: Snapshot) returns (next: JobState)
    requires Reaches(cfg, s, t) && t.core.pc.PollController? && !Halted(t.core.row)
    requires t.core.pc.episodes == t.core.row.episodes
    ensures Reaches(cfg, s, next) && next.now == t.now
    ensures next.core.row == t.core.row.(controllerStatus := Some(c.state),
                                         episodes := MergeCounts(t.core.row.episodes, c.summary),
                                         updatedAt := Stamp(t.now), version := t.core.row.version + 1)
    ensures next.core.pc == AfterControllerStatus(cfg, next.core.row, t.now, t.core.pc.g, c)
  {
    next := AwaitAt(cfg, s, t, Report(c));
    next := AwaitAt(cfg, s, next, Report(c));
  }

  const ONE_FAILURE := Snapshot(RJobRunning, false, None, None, map["failed" := 1])
  const ALL_DONE := Snapshot(RJobSucceeded, false, None, None, map["total" := 1, "succeeded" := 1, "collected" := 1])

  lemma ReachesPollGateway(cfg: Config, jobId: string, rangeId: string, now: Time) returns (t: JobState)
    ensures Reaches(cfg, Init(jobId, rangeId, now), t) && t.now == now && t.core.pc == PollGateway("r")
    ensures var row := t.core.row;
            row.status == Preparing && row.gatewayId.Some? && row.gatewayUrl.None? && row.controllerId.None?
            && row.startedAt.None? && row.binding == Some(Binding(jobId, rangeId, 1, "inputs"))
  {
    t := ReachesCreateGateway(cfg, jobId, rangeId, now, "r");
    t := GatewayCreated(cfg, Init(jobId, rangeId, now), t);
    t := GatewaySaved(cfg, Init(jobId, rangeId, now), t);
  }

  lemma GatewayCreated(cfg: Config, s: JobState, t: JobState) returns (next: JobState)
    requires Reaches(cfg, s, t) && t.core.pc == CreateGateway
    ensures Reaches(cfg, s, next) && next.now == t.now && next.core.pc == SaveGateway("r") && next.core.row == t.core.row
  {
    next := AwaitAt(cfg, s, t, Report(NO_SNAPSHOT));
  }

  lemma GatewaySaved(cfg: Config, s: JobState, t: JobState) returns (next: JobState)
    requires Reaches(cfg, s, t) && t.core.pc == SaveGateway("r") && t.core.row.status == Preparing
    ensures Reaches(cfg, s, next) && next.now == t.now && next.core.pc == PollGateway("r")
    ensures next.core.row == t.core.row.(gatewayId := Some("r"), phase := next.core.row.phase, updatedAt := Stamp(t.now),
                                         gatewayStatus := next.core.row.gatewayStatus, version := t.core.row.version + 1)
  {
    next := AwaitAt(cfg, s, t, Report(NO_SNAPSHOT));
    next := AwaitAt(cfg, s, next, Report(NO_SNAPSHOT));
  }

  /** The cleanup of a closed job may end the loop: its gateway stop raises something unforeseen. */
  lemma ASweepMayEndTheLoop(cfg: Config, jobId: string, rangeId: string, now: Time) returns (end: JobState)
    ensures Reaches(cfg, Init(jobId, rangeId, now), end) && end.core.pc.Escaped? && end.core.row.status == Closing
  {
    var s := Init(jobId, rangeId, now);
    end := ReachesPollGateway(cfg, jobId, rangeId, now);
    end := ReachesNext(cfg, s, end, Crash(CannotBind));
    end := ReachesNext(cfg, s, end, CloseRequest);
    end := SweepStarts(cfg, s, end);
    end := StopIsNext(cfg, s, end);
    end := StopRaisesUnforeseen(cfg, s, end);
  }

  lemma StopIsNext(cfg: Config, s: JobState, t: JobState) returns (next: JobState)
    requires Reaches(cfg, s, t) && t.core.pc == CleanRead(InSweep) && t.core.row.status == Closing
    requires t.core.row.gatewayId.Some? && t.core.row.controllerId.None?
    ensures Reaches(cfg, s, next) && next.core.row == t.core.row
    ensures next.core.pc == StopGateway(t.core.row.gatewayId.value, true, InSweep)
  {
    next := AwaitAt(cfg, s, t, Report(NO_SNAPSHOT));
  }

  lemma StopRaisesUnforeseen(cfg: Config, s: JobState, t: JobState) returns (next: JobState)
    requires Reaches(cfg, s, t) && t.core.pc.StopGateway? && t.core.pc.caller.InSweep?
    ensures Reaches(cfg, s, next) && next.core.pc.Escaped? && next.core.row == t.core.row
  {
    next := AwaitAt(cfg, s, t, Report(NO_SNAPSHOT).(stop := StopRaises(Unexpected)));
  }

  lemma ReachesRunning(cfg: Config, jobId: string, rangeId: string, now: Time, g: Snapshot) returns (t: JobState)
    requires GatewayHasRoute(cfg, g)
    ensures Reaches(cfg, Init(jobId, rangeId, now), t) && t.now == now && Supervised(cfg, t.core.row, g, now)
    ensures t.core.pc == PollController("r", t.core.row.episodes, g)
  {
    var s := Init(jobId, rangeId, now);
    t := ReachesPollGateway(cfg, jobId, rangeId, now);
    t := ReachesHealthyGateway(cfg, s, t, g);
    t := ReachesFirstUrl(cfg, s, t, g);
    t := ReachesController(cfg, s, t, g);
  }

  /** A first turn that starts the controller and sees one failed episode. */
  lemma ReachesOneFailure(cfg: Config, jobId: string, rangeId: string, now: Time, g: Snapshot) returns (t: JobState)
    requires GatewayHasRoute(cfg, g) && cfg.controllerTimeout >= 1
    ensures Reaches(cfg, Init(jobId, rangeId, now), t) && t.now == now && t.core.pc == Idle
    ensures Supervised(cfg, t.core.row, g, now) && t.core.row.episodes.failed == 1
  {
    var s := Init(jobId, rangeId, now);
    var mid := ReachesRunning(cfg, jobId, rangeId, now, g);
    var counted := ReachesCounts(cfg, s, mid, ONE_FAILURE);
    assert !ControllerTimedOut(cfg, counted.core.row, now);
    assert counted.core.pc == Log(ReconciliationCompleted, Idle);
    t := AwaitAt(cfg, s, counted, Report(g));
    assert t.core == counted.core.(pc := Idle);
  }

  lemma TurnStarts(cfg: Config, s: JobState, t: JobState) returns (next: JobState)
    requires Reaches(cfg, s, t) && t.core.pc == Idle && t.core.row.status == Running
    ensures Reaches(cfg, s, next) && next.now == t.now
    ensures next.core == t.core.(pc := BumpAttempt(t.core.row.attempt), seen := [])
  {
    next := ReachesNext(cfg, s, t, ListActive);
    assert next.core == t.core && next.listed == Some(t.core.row);
    next := ReachesNext(cfg, s, next, BeginTurn);
  }

  lemma ReachesSecondTurn(cfg: Config, s: JobState, t: JobState, g: Snapshot) returns (next: JobState)
    requires Reaches(cfg, s, t) && t.core.pc == Idle && t.core.row.status == Running
    requires t.core.row.binding.Some? && t.core.row.gatewayId.Some?
    ensures Reaches(cfg, s, next) && next.now == t.now && next.core.pc == PollGateway(t.core.row.gatewayId.value)
    ensures next.core.row == t.core.row.(attempt := t.core.row.attempt + 1, updatedAt := Stamp(t.now),
                                         version := t.core.row.version + 1)
  {
    next := TurnStarts(cfg, s, t);
    next := AwaitAt(cfg, s, next, Report(g));
    next := AwaitAt(cfg, s, next, Report(g));
    next := AwaitAt(cfg, s, next, Report(g));
  }

  lemma ReachesKnownController(cfg: Config, s: JobState, t: JobState, g: Snapshot) returns (next: JobState)
    requires Reaches(cfg, s, t) && t.core.pc == CheckAfterHealth(g, true) && GatewayHasRoute(cfg, g)
    requires Supervised(cfg, t.core.row, g, t.now)
    ensures Reaches(cfg, s, next) && next.now == t.now && next.core.row == t.core.row
    ensures next.core.pc == PollController(t.core.row.controllerId.value, t.core.row.episodes, g)
  {
    next := AwaitAt(cfg, s, t, Report(g));
    next := AwaitAt(cfg, s, next, Report(g));
  }

  /** A second turn up to the success write. */
  lemma ReachesSuccessWrite(cfg: Config, s: JobState, t: JobState, g: Snapshot) returns (next: JobState)
    requires Reaches(cfg, s, t) && t.core.pc == Idle && GatewayHasRoute(cfg, g)
    requires Supervised(cfg, t.core.row, g, t.now)
    ensures Reaches(cfg, s, next) && next.core.pc == Succeed(g, ALL_DONE) && next.core.row.status == Running
    ensures next.core.row.episodes.failed == t.core.row.episodes.failed
  {
    next := ReachesSecondTurn(cfg, s, t, g);
    next := ReachesHealthyGateway(cfg, s, next, g);
    next := ReachesKnownController(cfg, s, next, g);
    next := ReachesCounts(cfg, s, next, ALL_DONE);
    assert ResultsComplete(next.core.row.binding.value, ALL_DONE);
  }

  /**
   A job may succeed with a failure on record: an earlier poll counted one failed episode, and
   the final summary, complete in every other respect, leaves the entry out.
   */
  lemma SuccessMayRecordAFailure(cfg: Config, jobId: string, rangeId: string, now: Time, g: Snapshot)
    returns (end: JobState)
    requires GatewayHasRoute(cfg, g) && cfg.controllerTimeout >= 1
    ensures Reaches(cfg, Init(jobId, rangeId, now), end)
    ensures end.core.row.status == Succeeded && end.core.row.episodes.failed == 1
  {
    var s := Init(jobId, rangeId, now);
    var counted := ReachesOneFailure(cfg, jobId, rangeId, now, g);
    var ready := ReachesSuccessWrite(cfg, s, counted, g);
    end := AwaitAt(cfg, s, ready, Report(g));
  }
}
