/**
 The durable job table and its append-only event log.  Every public operation of the
 store is one atomic section; the two functions UpdateRow and CloseRow say what such a
 section does to one row, and class Store is the table itself.
 */
module ControlStore {
  import opened Wrappers

  datatype JobStatus = Queued | Preparing | Running | Closing | Succeeded | Failed | Closed

  predicate Terminal(s: JobStatus) {
    s == Succeeded || s == Failed || s == Closed
  }

  predicate Active(s: JobStatus) {
    s == Queued || s == Preparing || s == Running
  }

  datatype Phase =
    | ValidatingRequest
    | ResolvingJobFiles
    | SubmittingGatewayRJob
    | WaitingGatewayAddress
    | CheckingGatewayHealth
    | SubmittingSafactoryRJob
    | RunningSafactory
    | CleaningRJobs
    | Completed

  /** Clock readings, in microseconds. */
  type Time = nat

  const MICROS_PER_MILLI: nat := 1000
  const MICROS_PER_SECOND: nat := 1_000_000

  /** Stored timestamps keep milliseconds only. */
  function Stamp(t: Time): Time {
    t - t % MICROS_PER_MILLI
  }

  datatype RJobState = RJobPending | RJobRunning | RJobSucceeded | RJobFailed | RJobCancelled | RJobUnknown

  /** Platform clients never report an empty RJob id. */
  type RJobId = s: string | s != "" witness "r"

  /** The published input set of a job; contentDigest stands for its checksums and paths. */
  datatype Binding = Binding(jobId: string, rangeId: string, totalEpisodes: nat, contentDigest: string)

  datatype Episodes = Episodes(total: int, running: int, succeeded: int, failed: int, collected: int)

  /** Why a job has failed. */
  datatype FailureReason =
    | FileBindingFailed
    | GatewayRJobFailed
    | GatewayLostDuringRun
    | GatewayReadyTimeout
    | GatewayHealthTimeout
    | GatewayAddressChanged
    | EpisodeResultsIncomplete
    | SafactoryRJobFailed
    | SafactoryRJobTimeout
    | UnavailableDependency
    | InternalOrchestrationError

  datatype ControlJob = ControlJob(
    jobId: string,
    rangeId: string,
    status: JobStatus,
    phase: Phase,
    reason: Option<FailureReason>,
    binding: Option<Binding>,
    gatewayId: Option<RJobId>,
    gatewayStatus: Option<RJobState>,
    gatewayUrl: Option<string>,
    gatewayReadyAt: Option<Time>,
    controllerId: Option<RJobId>,
    controllerStatus: Option<RJobState>,
    episodes: Episodes,
    createdAt: Time,
    startedAt: Option<Time>,
    completedAt: Option<Time>,
    updatedAt: Time,
    attempt: nat,
    version: nat,
    cleanup: bool)

  function NewControlJob(jobId: string, rangeId: string, now: Time): ControlJob {
    ControlJob(jobId, rangeId, Queued, ValidatingRequest, None, None, None, None, None, None, None, None,
               Episodes(0, 0, 0, 0, 0), Stamp(now), None, None, Stamp(now), 0, 1, false)
  }

  /** The keyword arguments of one update; a field left at None is not assigned. */
  datatype Changes = Changes(
    nameonly status: Option<JobStatus> := None,
    nameonly phase: Option<Phase> := None,
    nameonly reason: Option<Option<FailureReason>> := None,
    nameonly binding: Option<Binding> := None,
    nameonly gatewayId: Option<RJobId> := None,
    nameonly gatewayStatus: Option<RJobState> := None,
    nameonly gatewayUrl: Option<string> := None,
    nameonly gatewayReadyAt: Option<Time> := None,
    nameonly controllerId: Option<RJobId> := None,
    nameonly controllerStatus: Option<RJobState> := None,
    nameonly episodes: Option<Episodes> := None,
    nameonly startedAt: Option<Time> := None,
    nameonly completedAt: Option<Time> := None,
    nameonly attempt: Option<nat> := None,
    nameonly cleanup: Option<bool> := None)

  function Pick<T>(change: Option<T>, current: T): T {
    if change.Some? then change.value else current
  }

  function PickSome<T>(change: Option<T>, current: Option<T>): Option<T> {
    if change.Some? then change else current
  }

  function Assign(row: ControlJob, c: Changes): ControlJob {
    ControlJob(
      row.jobId, row.rangeId,
      Pick(c.status, row.status),
      Pick(c.phase, row.phase),
      Pick(c.reason, row.reason),
      PickSome(c.binding, row.binding),
      PickSome(c.gatewayId, row.gatewayId),
      PickSome(c.gatewayStatus, row.gatewayStatus),
      PickSome(c.gatewayUrl, row.gatewayUrl),
      PickSome(c.gatewayReadyAt, row.gatewayReadyAt),
      PickSome(c.controllerId, row.controllerId),
      PickSome(c.controllerStatus, row.controllerStatus),
      Pick(c.episodes, row.episodes),
      row.createdAt,
      PickSome(c.startedAt, row.startedAt),
      PickSome(c.completedAt, row.completedAt),
      row.updatedAt,
      Pick(c.attempt, row.attempt),
      row.version,
      Pick(c.cleanup, row.cleanup))
  }

  datatype StoreError = JobStateConflict | TerminalImmutable | NoSuchJob | DuplicateJob

  /** One update section: the terminal guard, the closing guard, then the write. */
  function UpdateRow(row: ControlJob, now: Time, c: Changes): Result<ControlJob, StoreError> {
    var requested := Pick(c.status, row.status);
    if Terminal(row.status) && requested != row.status then Err(TerminalImmutable)
    else if row.status == Closing && requested != Closing && requested != Closed then Err(JobStateConflict)
    else
      var effective := if row.status == Closing && requested == Closing then c.(phase := None) else c;
      Ok(Assign(row, effective).(updatedAt := Stamp(now), version := row.version + 1))
  }

  /** One close section; the flag is true only for the request that made the transition. */
  function CloseRow(row: ControlJob, now: Time): (ControlJob, bool) {
    if !Active(row.status) then (row, false)
    else
      (row.(status := Closing, phase := CleaningRJobs, cleanup := true,
            updatedAt := Stamp(now), version := row.version + 1), true)
  }

  datatype EventKind =
    | JobCreated
    | JobCloseRequested
    | ReconciliationStarted
    | JobFilesBound
    | GatewaySubmitted
    | GatewayReady
    | ControllerSubmitted
    | ReconciliationCompleted
    | JobSucceeded
    | JobFailed
    | CleanupSkipped
    | EpisodeCleanupRequested
    | ControllerDeleted
    | GatewayDeleted
    | CleanupCompleted
    | JobClosed

  datatype Event = Event(jobId: string, kind: EventKind, phase: Phase, at: Time)

  class Store {
    var jobs: map<string, ControlJob>
    var events: seq<Event>

    ghost predicate Valid()
      reads this
    {
      forall id :: id in jobs ==> jobs[id].jobId == id
    }

    constructor ()
      ensures Valid() && jobs == map[] && events == []
    {
      jobs := map[];
      events := [];
    }

    method Add(job: ControlJob) returns (r: Result<(), StoreError>)
      requires Valid()
      modifies this`jobs
      ensures Valid()
      ensures job.jobId in old(jobs) ==> r == Err(DuplicateJob) && jobs == old(jobs)
      ensures job.jobId !in old(jobs) ==> r == Ok(()) && jobs == old(jobs)[job.jobId := job]
    {
      if job.jobId in jobs {
        return Err(DuplicateJob);
      }
      jobs := jobs[job.jobId := job];
      return Ok(());
    }

    method Get(id: string) returns (r: Option<ControlJob>)
      ensures r == if id in jobs then Some(jobs[id]) else None
    {
      if id in jobs {
        return Some(jobs[id]);
      }
      return None;
    }

    method Update(id: string, now: Time, changes: Changes) returns (r: Result<ControlJob, StoreError>)
      requires Valid()
      modifies this`jobs
      ensures Valid()
      ensures r == if id in old(jobs) then UpdateRow(old(jobs)[id], now, changes) else Err(NoSuchJob)
      ensures jobs == if r.Ok? then old(jobs)[id := r.value] else old(jobs)
    {
      if id !in jobs {
        return Err(NoSuchJob);
      }
      var current := jobs[id];
      var requested := Pick(changes.status, current.status);
      if Terminal(current.status) && requested != current.status {
        return Err(TerminalImmutable);
      }
      var effective := changes;
      if current.status == Closing {
        if requested != Closing && requested != Closed {
          return Err(JobStateConflict);
        }
        if requested == Closing {
          effective := effective.(phase := None);
        }
      }
      var row := Assign(current, effective).(updatedAt := Stamp(now), version := current.version + 1);
      jobs := jobs[id := row];
      return Ok(row);
    }

    method RequestClose(id: string, now: Time) returns (r: Result<(ControlJob, bool), StoreError>)
      requires Valid()
      modifies this`jobs
      ensures Valid()
      ensures r == if id in old(jobs) then Ok(CloseRow(old(jobs)[id], now)) else Err(NoSuchJob)
      ensures jobs == if r.Ok? then old(jobs)[id := r.value.0] else old(jobs)
    {
      if id !in jobs {
        return Err(NoSuchJob);
      }
      var current := jobs[id];
      if !Active(current.status) {
        assert jobs == jobs[id := current];
        return Ok((current, false));
      }
      var row := current.(status := Closing, phase := CleaningRJobs, cleanup := true,
                          updatedAt := Stamp(now), version := current.version + 1);
      jobs := jobs[id := row];
      return Ok((row, true));
    }

    method AddEvent(id: string, kind: EventKind, phase: Phase, now: Time)
      modifies this`events
      ensures events == old(events) + [Event(id, kind, phase, Stamp(now))]
    {
      events := events + [Event(id, kind, phase, Stamp(now))];
    }
  }

  // -------------------------------------------------------------------------------------
  // What one update writes.
  // -------------------------------------------------------------------------------------

  /** A named column takes the new value, another keeps its own. */
  predicate Written<T(==)>(change: Option<T>, before: T, after: T) {
    after == if change.Some? then change.value else before
  }

  predicate Filled<T(==)>(change: Option<T>, before: Option<T>, after: Option<T>) {
    if change.Some? then after == change else after == before
  }

  /**
   An update that passes the guards writes every column it names, and no other, stamps the row to the millisecond
   and counts one version; a job that stays closing keeps its phase.
   */
  lemma UpdatesWriteWhatTheyName(row: ControlJob, now: Time, c: Changes)
    ensures var r := UpdateRow(row, now, c);
            r.Ok? ==>
              && Written(c.status, row.status, r.value.status)
              && Written(if row.status == r.value.status == Closing then None else c.phase, row.phase, r.value.phase)
              && Written(c.reason, row.reason, r.value.reason)
              && Filled(c.binding, row.binding, r.value.binding)
              && Filled(c.gatewayId, row.gatewayId, r.value.gatewayId)
              && Filled(c.gatewayStatus, row.gatewayStatus, r.value.gatewayStatus)
              && Filled(c.gatewayUrl, row.gatewayUrl, r.value.gatewayUrl)
              && Filled(c.gatewayReadyAt, row.gatewayReadyAt, r.value.gatewayReadyAt)
              && Filled(c.controllerId, row.controllerId, r.value.controllerId)
              && Filled(c.controllerStatus, row.controllerStatus, r.value.controllerStatus)
              && Written(c.episodes, row.episodes, r.value.episodes)
              && Filled(c.startedAt, row.startedAt, r.value.startedAt)
              && Filled(c.completedAt, row.completedAt, r.value.completedAt)
              && Written(c.attempt, row.attempt, r.value.attempt)
              && Written(c.cleanup, row.cleanup, r.value.cleanup)
              && r.value.jobId == row.jobId && r.value.rangeId == row.rangeId && r.value.createdAt == row.createdAt
              && r.value.updatedAt <= now < r.value.updatedAt + 1000 && r.value.updatedAt % 1000 == 0
              && r.value.version == row.version + 1
    ensures UpdateRow(row, now, c) == Err(TerminalImmutable) <==>
              Terminal(row.status) && c.status.Some? && c.status.value != row.status
    ensures UpdateRow(row, now, c) == Err(JobStateConflict) <==>
              row.status == Closing && c.status.Some? && c.status.value != Closing && c.status.value != Closed
  {
  }

  // -------------------------------------------------------------------------------------
  // What the guards alone promise, over any sequence of store commands on one row.
  // -------------------------------------------------------------------------------------

  datatype Command = UpdateCommand(now: Time, changes: Changes) | CloseCommand(at: Time)

  function Execute(row: ControlJob, c: Command): ControlJob {
    match c
    case UpdateCommand(now, changes) =>
      var r := UpdateRow(row, now, changes);
      if r.Ok? then r.value else row
    case CloseCommand(at) => CloseRow(row, at).0
  }

  function ExecuteAll(row: ControlJob, cs: seq<Command>): ControlJob
    decreases |cs|
  {
    if cs == [] then row else ExecuteAll(Execute(row, cs[0]), cs[1..])
  }

  /**
   Closing is left only towards closed, and terminal rows keep their status; this holds for
   any caller, whatever it asks for.  Identity, creation time and the version order too.
   */
  lemma {:induction false} GuardsHoldForever(row: ControlJob, cs: seq<Command>)
    ensures var end := ExecuteAll(row, cs);
            && (row.status == Closing ==> end.status == Closing || end.status == Closed)
            && (Terminal(row.status) ==> end.status == row.status)
            && end.jobId == row.jobId && end.createdAt == row.createdAt
            && row.version <= end.version
            && (end.version == row.version ==> end == row)
    decreases |cs|
  {
    if cs != [] {
      GuardsHoldForever(Execute(row, cs[0]), cs[1..]);
    }
  }

  /**
   The guards do not order the active statuses: an update may take a running row back to
   preparing.  That this never happens is a property of the orchestrator, not of the store.
   */
  lemma StoreAllowsRunningToPreparing(row: ControlJob, now: Time)
    requires row.status == Running
    ensures var r := UpdateRow(row, now, Changes(status := Some(Preparing)));
            r.Ok? && r.value.status == Preparing
  {
  }

  /** Closing twice changes nothing the second time, however many commands lie between. */
  lemma CloseHappensOnce(row: ControlJob, now: Time, cs: seq<Command>, later: Time)
    ensures var (closed, _) := CloseRow(row, now);
            var end := ExecuteAll(closed, cs);
            CloseRow(end, later) == (end, false)
  {
    GuardsHoldForever(CloseRow(row, now).0, cs);
  }
}
