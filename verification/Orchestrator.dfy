/**
 The reconciliation loop in the form of its source: straight-line code over the job table and
 the shared files.  At every await other requests may run; whatever they do and whatever the
 platform answers, each job does nothing but a run of the machine, so every theorem about runs
 holds of the rows in the table.
 */
module Orchestration {
  import opened Wrappers
  import opened ControlStore
  import opened Platform
  import opened JobMachine
  import opened BindHistory
  import opened World
  import opened OwnMoves
  import opened Passes
  import opened PassTheorems
  import FileManager

  /** What may happen while the loop is suspended: time, other requests, and the death of the process. */
  datatype Outside =
    | Passes(d: nat)
    | Closes(id: string)
    | LogsClose(id: string)
    | Submits(id: string, rangeId: string)
    | Dies

  /** How a step of the loop ends: a return, or one of the exceptions it tells apart. */
  datatype Flow = Returned | Conflict | DependencyRaised | UnexpectedRaised

  /** Where the coroutine stands when the failure or cleanup procedure has ended this way. */
  function Left(caller: Caller, flow: Flow): PC {
    match flow
    case Returned => Return(caller)
    case Conflict => RaiseStoreErrorFrom(JobStateConflict, caller)
    case _ => RaiseFrom(caller)
  }

  /** Where the coroutine stands when the reconciliation has ended this way. */
  function Thrown(flow: Flow): PC {
    match flow
    case DependencyRaised => OnDependencyError
    case UnexpectedRaised => Raise(Unexpected)
    case _ => Idle
  }

  /** The process is not killed in any of these awaits. */
  predicate Survived(outside: seq<seq<Outside>>) {
    forall k :: 0 <= k < |outside| ==> Dies !in outside[k]
  }

  /**
   The process may die at any await, and in the file operations of a bind call.  A dead process does
   nothing: what is left of the pass is gone through without effect, and the pass reports the death.
   */
  class Orchestrator {
    const cfg: Config
    const store: Store
    const files: FileManager.SharedFiles
    var now: Time
    var owed: set<string>              // close handlers that still owe their event
    var dead: bool                     // the process has died in this pass
    var outside: seq<seq<Outside>>     // what happens during the coming awaits
    var answers: seq<Answer>           // what the platform answers next
    var catalogs: seq<(FileManager.CatalogAnswer, string)>
    ghost const mc: Machine
    ghost const here: Spot -> bool
    ghost const doomed: bool           // some await or some file operation to come kills the process
    ghost var m: map<string, JobState>
    ghost var listed: map<string, ControlJob>    // listed by the pass, not yet visited
    ghost var sweeping: set<string>
    ghost var past: map<string, JobState>        // states noted on the way
    ghost var begun: map<string, JobState>       // where the visit under way began

    constructor (cfg: Config, store: Store, files: FileManager.SharedFiles, outside: seq<seq<Outside>>,
                 answers: seq<Answer>, catalogs: seq<(FileManager.CatalogAnswer, string)>)
      requires store.Valid() && store.jobs == map[] && store.events == [] && files.Published()
      ensures this.cfg == cfg && this.store == store && this.files == files && m == map[]
      ensures Down() && !dead && mc == TheMachine(cfg)
      ensures !doomed <==> Survived(outside) && FileManager.Death !in files.script
    {
      this.cfg := cfg;
      this.store := store;
      this.files := files;
      this.outside := outside;
      this.answers := answers;
      this.catalogs := catalogs;
      var machine := TheMachine(cfg);
      mc := machine;
      here := x => Here(cfg, machine, x);
      doomed := !(Survived(outside) && FileManager.Death !in files.script);
      dead := false;
      now := 0;
      owed := {};
      m := map[];
      listed := map[];
      sweeping := {};
      past := map[];
      begun := map[];
    }

    ghost function W(): World
      reads this, store, files
    {
      World(m, store.jobs, store.events, FileManager.Manifests(files.dirs), now, owed, past,
            if dead then map[] else begun)
    }

    /** Nothing has killed the process, and nothing to come does. */
    ghost predicate Spared()
      reads this, files
    {
      !dead && Survived(outside) && FileManager.Death !in files.script
    }

    /** The store and the shared files are in order, and so is the process, unless it is doomed. */
    ghost predicate Steady()
      reads this, store, files
    {
      store.Valid() && files.Published() && (doomed || Spared())
    }

    ghost predicate Sound()
      reads this, store, files
    {
      (Steady() && Means(cfg, mc, here)) == true
    }

    /** The table, the log, the files and the clock are those of the machines. */
    ghost predicate Sim()
      reads this, store, files
    {
      Sound() && Agree(cfg, mc, W())
    }

    // --- Other requests --------------------------------------------------------------------------

    method Elapse(d: nat)
      requires Sim() && !dead
      modifies this`now, this`m
      ensures Sim() && OnlyNudged(old(m), m)
    {
      TickAgrees(cfg, mc, W(), d);
      TickNudges(cfg, mc, W(), d);
      Tick(d);
    }

    method Tick(d: nat)
      requires Steady()
      modifies this`now, this`m
      ensures Steady() && W() == WithTick(mc, old(W()), d)
    {
      ghost var v := WithTick(mc, W(), d);
      now := now + d;
      m := v.m;
    }

    method Close(id: string)
      requires Sim() && !dead
      modifies this`owed, this`m, store`jobs
      ensures Sim() && OnlyNudged(old(m), m)
    {
      if id in store.jobs {
        assert id in m;
        CloseAgrees(cfg, mc, W(), id);
        MoveNudges(cfg, mc, m, id, CloseRequest);
        CloseSection(id);
      }
    }

    /** The table moves the row; the machine takes the close. */
    method CloseSection(id: string)
      requires Steady() && id in store.jobs && id in m
      modifies this`owed, this`m, store`jobs
      ensures Steady() && W() == WithClose(mc, old(W()), id)
    {
      ghost var v := WithClose(mc, W(), id);
      var r := store.RequestClose(id, now);
      owed := if r.value.1 then owed + {id} else owed;
      m := v.m;
    }

    method LogClose(id: string)
      requires Sim() && !dead
      modifies this`owed, this`m, store`events
      ensures Sim() && OnlyNudged(old(m), m)
    {
      if id in owed {
        assert id in m;
        CloseEventAgrees(cfg, mc, W(), id);
        MoveNudges(cfg, mc, m, id, CloseHandlerLogs);
        LogSection(id);
      }
    }

    method LogSection(id: string)
      requires Steady() && id in m
      modifies this`owed, this`m, store`events
      ensures Steady() && W() == WithCloseEvent(mc, old(W()), id)
    {
      ghost var v := WithCloseEvent(mc, W(), id);
      store.AddEvent(id, JobCloseRequested, CleaningRJobs, now);
      owed := owed - {id};
      m := v.m;
    }

    /** Job ids are new: neither in the table nor in the log nor among the published directories. */
    method Submit(id: string, rangeId: string)
      requires Sim() && !dead
      modifies this`m, store
      ensures Sim() && OnlyNudged(old(m), m)
    {
      if id !in store.jobs && id !in FileManager.Manifests(files.dirs) && Kinds(store.events, id) == [] {
        assert id !in m;
        JobAgrees(cfg, mc, W(), id, rangeId);
        JobNudges(m, id, rangeId, now);
        SubmitSection(id, rangeId);
      }
    }

    method SubmitSection(id: string, rangeId: string)
      requires Steady() && id !in store.jobs
      modifies this`m, store
      ensures Steady() && W() == WithJob(old(W()), id, rangeId)
    {
      ghost var v := WithJob(W(), id, rangeId);
      var added := store.Add(NewControlJob(id, rangeId, now));
      store.AddEvent(id, JobCreated, ValidatingRequest, now);
      m := v.m;
    }

    /** The process dies: the turn under way, the queue and the close handlers are gone. */
    method Die()
      requires Sim() && !dead && doomed
      modifies this`dead, this`owed, this`m
      ensures dead && Down()
    {
      ghost var v := RestartHere(cfg, mc, here, W());
      Perish(v.m);
    }

    method Perish(ghost machines: map<string, JobState>)
      requires Steady() && doomed
      modifies this`dead, this`owed, this`m
      ensures dead && Steady() && W() == old(W()).(m := machines, owed := {}, begun := map[])
    {
      dead := true;
      owed := {};
      m := machines;
    }

    method Happen(o: Outside)
      requires Sim() && !dead && (o.Dies? ==> doomed)
      modifies this`now, this`owed, this`m, this`dead, store
      ensures Sim() && (dead ==> Down()) && (!dead ==> OnlyNudged(old(m), m))
    {
      match o
      case Passes(d) => Elapse(d);
      case Closes(id) => Close(id);
      case LogsClose(id) => LogClose(id);
      case Submits(id, rangeId) => Submit(id, rangeId);
      case Dies =>
        Die();
        Resting();
    }

    /** The next await: the loop is suspended, and so much happens meanwhile. */
    method NextBatch() returns (batch: seq<Outside>)
      requires Sim() && !dead
      modifies this`outside
      ensures Sim() && !dead && (doomed || Dies !in batch)
    {
      batch := [];
      if outside != [] {
        batch := outside[0];
        outside := outside[1..];
      }
    }

    /** The loop is suspended: any number of other requests run, unless the process dies. */
    method Suspend()
      requires Sim() && !dead
      modifies this`now, this`owed, this`m, this`dead, this`outside, store
      ensures Sim() && (dead ==> Down()) && (!dead ==> OnlyNudged(old(m), m))
    {
      var batch := NextBatch();
      for n := 0 to |batch|
        invariant Sim() && !dead && OnlyNudged(old(m), m)
      {
        ghost var before := m;
        Happen(batch[n]);
        if dead {
          return;
        }
        NudgedTwice(old(m), before, m);
      }
    }

    // --- Awaits ----------------------------------------------------------------------------------

    /** The coroutine of this job, and no other, stands at this control point; or the process is dead. */
    ghost predicate At(id: string, pc: PC)
      reads this, store, files
    {
      Sound() && here(Place(id, pc))
    }

    ghost function Place(id: string, pc: PC): Spot
      reads this, store, files
    {
      if dead then Quiet(W(), map[], {}) else Spot(W(), listed, sweeping, id, pc)
    }

    /** No turn is under way. */
    ghost predicate Between()
      reads this, store, files
    {
      Sound() && !dead && here(Quiet(W(), listed, sweeping))
    }

    lemma Agreeing(id: string, pc: PC)
      requires !dead && At(id, pc)
      ensures Sim()
    {
      assert Here(cfg, mc, Place(id, pc));
    }

    /** The coroutine of one job is suspended. */
    method SuspendTurn(id: string, ghost pc: PC)
      requires At(id, pc)
      modifies this`now, this`owed, this`m, this`dead, this`outside, store
      ensures At(id, pc)
      ensures old(dead) ==> dead && W() == old(W())
    {
      if !dead {
        ghost var x := Place(id, pc);
        Agreeing(id, pc);
        Suspend();
        if !dead {
          StillHere(cfg, mc, here, x, W());
        }
      }
    }

    /** await store.update(...) */
    method Update(id: string, ghost pc: PC, read: Option<Time>, changes: (ControlJob, Time) -> Changes,
                  ghost next: (Written, Time) -> PC) returns (r: Written)
      requires At(id, pc) && StepsByUpdate(cfg, pc, read, changes, next)
      modifies this`now, this`owed, this`m, this`dead, this`outside, store
      ensures At(id, next(r, now))
      ensures old(dead) ==> dead && W() == old(W())
    {
      SuspendTurn(id, pc);
      if dead {
        return Err(JobStateConflict);
      }
      r := UpdateSection(id, pc, read, changes, next);
    }

    /** The table writes; the machine takes its step. */
    method UpdateSection(id: string, ghost pc: PC, read: Option<Time>, changes: (ControlJob, Time) -> Changes,
                         ghost next: (Written, Time) -> PC) returns (r: Written)
      requires !dead && At(id, pc) && StepsByUpdate(cfg, pc, read, changes, next)
      modifies this`m, store`jobs
      ensures At(id, next(r, now))
    {
      UpdateHere(cfg, mc, here, Place(id, pc), read, changes, next);
      r := WriteSection(id, read, changes);
    }

    method WriteSection(id: string, read: Option<Time>, changes: (ControlJob, Time) -> Changes) returns (r: Written)
      requires Steady() && id in store.jobs && id in m
      modifies this`m, store`jobs
      ensures Steady() && now == old(now) && r == Write(old(W()), id, read, changes)
      ensures W() == After(mc, old(W()), id, NOTHING, Updated(old(W()).jobs, id, r))
    {
      ghost var v := After(mc, W(), id, NOTHING, store.jobs);
      r := store.Update(id, Clock(read, now), changes(store.jobs[id], now));
      m := v.m;
    }

    /** await store.get(...) */
    method Read(id: string, ghost pc: PC, ghost next: (ControlJob, Time) -> PC) returns (job: ControlJob)
      requires At(id, pc) && StepsByRead(cfg, pc, next)
      modifies this`now, this`owed, this`m, this`dead, this`outside, store
      ensures At(id, next(job, now))
      ensures old(dead) ==> dead && W() == old(W())
    {
      SuspendTurn(id, pc);
      if dead {
        return NewControlJob(id, "", now);
      }
      job := ReadSection(id, pc, next);
    }

    method ReadSection(id: string, ghost pc: PC, ghost next: (ControlJob, Time) -> PC) returns (job: ControlJob)
      requires !dead && At(id, pc) && StepsByRead(cfg, pc, next)
      modifies this`m
      ensures At(id, next(job, now))
    {
      ReadHere(cfg, mc, here, Place(id, pc), next);
      job := store.jobs[id];
      TakeStep(id, NOTHING);
    }

    /** The machine of this job takes its step; nothing else moves. */
    ghost method TakeStep(id: string, a: Answer)
      requires Steady() && id in m
      modifies this`m
      ensures Steady() && W() == After(mc, old(W()), id, a, store.jobs)
    {
      m := Moved(mc, m, id, Advance(a));
    }

    /** The call to the platform or to the health service that pc names; without an answer it raises. */
    method Call(id: string, pc: PC, ghost next: (Answer, Time) -> PC) returns (a: Answer)
      requires At(id, pc) && StepsByCall(cfg, pc, next)
      modifies this`now, this`owed, this`m, this`dead, this`outside, this`answers, store
      ensures At(id, next(a, now))
      ensures old(dead) ==> dead && W() == old(W())
    {
      SuspendTurn(id, pc);
      a := NOTHING;
      if dead {
        return;
      }
      if answers != [] {
        a := answers[0];
        answers := answers[1..];
      }
      Answered(id, pc, a, next);
    }

    ghost method Answered(id: string, pc: PC, a: Answer, next: (Answer, Time) -> PC)
      requires !dead && At(id, pc) && StepsByCall(cfg, pc, next)
      modifies this`m
      ensures At(id, next(a, now))
    {
      CallHere(cfg, mc, here, Place(id, pc), a, next);
      TakeStep(id, a);
    }

    /** await self._event(...) */
    method Event(id: string, kind: EventKind, phase: Phase, ghost next: PC)
      requires At(id, Log(kind, next)) && kind != JobCreated
      modifies this`now, this`owed, this`m, this`dead, this`outside, store
      ensures At(id, next)
      ensures old(dead) ==> dead && W() == old(W())
    {
      SuspendTurn(id, Log(kind, next));
      if !dead {
        AppendEvent(id, kind, phase, next);
      }
    }

    method AppendEvent(id: string, kind: EventKind, phase: Phase, ghost next: PC)
      requires !dead && At(id, Log(kind, next)) && kind != JobCreated
      modifies this`m, store`events
      ensures At(id, next)
    {
      EventHere(cfg, mc, here, Place(id, Log(kind, next)), kind, phase, next);
      EventSection(id, kind, phase);
    }

    method EventSection(id: string, kind: EventKind, phase: Phase)
      requires Steady() && id in m
      modifies this`m, store`events
      ensures Steady()
      ensures W() == old(W()).(m := Moved(mc, old(m), id, Advance(NOTHING)),
                               events := old(store.events) + [ControlStore.Event(id, kind, phase, Stamp(now))])
    {
      store.AddEvent(id, kind, phase, now);
      m := Moved(mc, m, id, Advance(NOTHING));
    }

    // --- Failure and cleanup ---------------------------------------------------------------------

    method Fail(id: string, why: FailureReason, caller: Caller) returns (flow: Flow)
      requires At(id, FailRead(why, caller))
      modifies this`now, this`owed, this`m, this`dead, this`outside, this`answers, store
      ensures At(id, Left(caller, flow)) && !flow.DependencyRaised?
    {
      FailReadRule(cfg, why, caller);
      var job := Read(id, FailRead(why, caller), AfterFailRead(why, caller));
      if job.status == Succeeded || job.status == Closing || job.status == Closed {
        return Returned;
      }
      if job.status != Failed {
        var written;
        flow, written := WriteFailure(id, why, caller);
        if !written {
          return;
        }
      }
      flow := Cleanup(id, caller);
    }

    /** The failure write and its event; a close that comes between is not an error. */
    method WriteFailure(id: string, why: FailureReason, caller: Caller) returns (flow: Flow, written: bool)
      requires At(id, FailWrite(why, caller))
      modifies this`now, this`owed, this`m, this`dead, this`outside, this`answers, store
      ensures written ==> At(id, CleanRead(caller))
      ensures !written ==> At(id, Left(caller, flow)) && !flow.DependencyRaised?
    {
      FailWriteRule(cfg, why, caller);
      var r := Update(id, FailWrite(why, caller), None, FailWriteChanges(why, caller), AfterFailWrite(why, caller));
      if r.Err? {
        return if r.error == JobStateConflict then Returned else UnexpectedRaised, false;
      }
      Event(id, JobFailed, r.value.phase, CleanRead(caller));
      return Returned, true;
    }

    method Cleanup(id: string, caller: Caller) returns (flow: Flow)
      requires At(id, CleanRead(caller))
      modifies this`now, this`owed, this`m, this`dead, this`outside, this`answers, store
      ensures At(id, Left(caller, flow)) && !flow.DependencyRaised?
    {
      CleanReadRule(cfg, caller);
      var job := Read(id, CleanRead(caller), AfterCleanRead(cfg, caller));
      var closing := job.status == Closing;
      if cfg.keepRJobs && !closing {
        flow := SkipCleanup(id, job, caller);
        return;
      }
      // The controller first, then the gateway; a dependency error leaves the rest to a later pass.
      var done := true;
      flow := Returned;
      if job.controllerId.Some? {
        flow, done := StopTheController(id, job, closing, caller);
      }
      if done && job.gatewayId.Some? {
        flow, done := StopTheGateway(id, job, closing, caller);
      }
      if done {
        flow := FinishCleanup(id, closing, caller);
      }
    }

    /** A refused update leaves the cleanup procedure. */
    method Refused(id: string, e: StoreError, caller: Caller) returns (flow: Flow)
      requires At(id, RaiseStoreErrorFrom(e, caller))
      ensures At(id, Left(caller, flow)) && !flow.DependencyRaised?
    {
      if e == JobStateConflict {
        return Conflict;
      } else {
        assert RaiseStoreErrorFrom(e, caller) == RaiseFrom(caller);
        return UnexpectedRaised;
      }
    }

    method SkipCleanup(id: string, job: ControlJob, caller: Caller) returns (flow: Flow)
      requires At(id, CleanSkip(caller))
      modifies this`now, this`owed, this`m, this`dead, this`outside, store
      ensures At(id, Left(caller, flow)) && !flow.DependencyRaised?
    {
      CleanSkipRule(cfg, caller);
      var r := Update(id, CleanSkip(caller), None, CleanSkipChanges(caller), AfterCleanSkip(caller));
      if r.Err? {
        flow := Refused(id, r.error, caller);
        return;
      }
      Event(id, CleanupSkipped, job.phase, Return(caller));
      return Returned;
    }

    method FinishCleanup(id: string, closing: bool, caller: Caller) returns (flow: Flow)
      requires At(id, CleanWrite(closing, caller))
      modifies this`now, this`owed, this`m, this`dead, this`outside, store
      ensures At(id, Left(caller, flow)) && !flow.DependencyRaised?
    {
      CleanWriteRule(cfg, closing, caller);
      var r := Update(id, CleanWrite(closing, caller), None, CleanWriteChanges(closing, caller), AfterCleanWrite(closing, caller));
      if r.Err? {
        flow := Refused(id, r.error, caller);
        return;
      }
      Event(id, CleanupCompleted, r.value.phase, if closing then Log(JobClosed, Return(caller)) else Return(caller));
      if closing {
        Event(id, JobClosed, r.value.phase, Return(caller));
      }
      return Returned;
    }

    /** A raising stop leaves the cleanup procedure: a dependency error quietly, to be retried. */
    method StopRaising(id: string, e: Exn, caller: Caller) returns (flow: Flow)
      requires At(id, AfterRaisingStop(e, caller))
      ensures At(id, Left(caller, flow)) && (flow.Returned? || flow.UnexpectedRaised?)
    {
      if e == Dependency {
        return Returned;
      } else {
        return UnexpectedRaised;
      }
    }

    method StopTheController(id: string, job: ControlJob, closing: bool,
                             caller: Caller) returns (flow: Flow, done: bool)
      requires job.controllerId.Some?
      requires At(id, Log(EpisodeCleanupRequested, StopController(job.controllerId.value, job.gatewayId, closing, caller)))
      modifies this`now, this`owed, this`m, this`dead, this`outside, this`answers, store
      ensures done ==> At(id, EnterStopGateway(job.gatewayId, closing, caller))
      ensures !done ==> At(id, Left(caller, flow))
      ensures flow.Returned? || flow.UnexpectedRaised?
    {
      var controller := job.controllerId.value;
      Event(id, EpisodeCleanupRequested, job.phase, StopController(controller, job.gatewayId, closing, caller));
      StopControllerRule(cfg, controller, job.gatewayId, closing, caller);
      var a := Call(id, StopController(controller, job.gatewayId, closing, caller),
                    AfterStopController(controller, job.gatewayId, closing, caller));
      if a.stop.StopRaises? {
        flow := StopRaising(id, a.stop.e, caller);
        return flow, false;
      }
      Event(id, ControllerDeleted, job.phase, EnterStopGateway(job.gatewayId, closing, caller));
      return Returned, true;
    }

    method StopTheGateway(id: string, job: ControlJob, closing: bool, caller: Caller) returns (flow: Flow, done: bool)
      requires job.gatewayId.Some? && At(id, StopGateway(job.gatewayId.value, closing, caller))
      modifies this`now, this`owed, this`m, this`dead, this`outside, this`answers, store
      ensures done ==> At(id, CleanWrite(closing, caller))
      ensures !done ==> At(id, Left(caller, flow))
      ensures flow.Returned? || flow.UnexpectedRaised?
    {
      var gateway := job.gatewayId.value;
      StopGatewayRule(cfg, gateway, closing, caller);
      var a := Call(id, StopGateway(gateway, closing, caller), AfterStopGateway(gateway, closing, caller));
      if a.stop.StopRaises? {
        flow := StopRaising(id, a.stop.e, caller);
        return flow, false;
      }
      Event(id, GatewayDeleted, job.phase, CleanWrite(closing, caller));
      return Returned, true;
    }

    // --- One turn --------------------------------------------------------------------------------

    /** A refused update leaves the reconciliation. */
    method Raised(id: string, e: StoreError) returns (flow: Flow)
      requires At(id, RaiseStoreError(e))
      ensures At(id, Thrown(flow))
    {
      if e == JobStateConflict {
        return Conflict;
      } else {
        return UnexpectedRaised;
      }
    }

    method RaisedBy(id: string, e: Exn) returns (flow: Flow)
      requires At(id, Raise(e))
      ensures At(id, Thrown(flow))
    {
      if e == Dependency {
        return DependencyRaised;
      } else {
        return UnexpectedRaised;
      }
    }

    method FailTurn(id: string, why: FailureReason) returns (flow: Flow)
      requires At(id, FailRead(why, InBody))
      modifies this`now, this`owed, this`m, this`dead, this`outside, this`answers, store
      ensures At(id, Thrown(flow))
    {
      flow := Fail(id, why, InBody);
      assert Left(InBody, flow) == Thrown(flow);
    }

    method SubmitGateway(id: string) returns (flow: Flow, gateway: Option<RJobId>)
      requires At(id, CreateGateway)
      modifies this`now, this`owed, this`m, this`dead, this`outside, this`answers, store
      ensures gateway.Some? ==> At(id, PollGateway(gateway.value))
      ensures gateway.None? ==> At(id, Thrown(flow))
    {
      CreateGatewayRule(cfg);
      var a := Call(id, CreateGateway, AfterCreateGateway());
      if a.create.CreateRaises? {
        flow := RaisedBy(id, a.create.e);
        return flow, None;
      }
      SaveGatewayRule(cfg, a.create.id);
      var r := Update(id, SaveGateway(a.create.id), None, SaveGatewayChanges(a.create.id), AfterSaveGateway(a.create.id));
      if r.Err? {
        flow := Raised(id, r.error);
        return flow, None;
      }
      var job := r.value;
      if Halted(job) || job.gatewayId.None? {
        Event(id, GatewaySubmitted, job.phase, Idle);
        return Returned, None;
      }
      Event(id, GatewaySubmitted, job.phase, PollGateway(job.gatewayId.value));
      return Returned, job.gatewayId;
    }

    method SubmitSafactory(id: string, startedAt: Option<Time>,
                           g: Snapshot) returns (flow: Flow, job: Option<ControlJob>)
      requires At(id, CreateController(startedAt, g))
      modifies this`now, this`owed, this`m, this`dead, this`outside, this`answers, store
      ensures job.Some? ==> At(id, EnterController(job.value, g))
      ensures job.None? ==> At(id, Thrown(flow))
    {
      CreateControllerRule(cfg, startedAt, g);
      var a := Call(id, CreateController(startedAt, g), AfterCreateController(startedAt, g));
      if a.create.CreateRaises? {
        flow := RaisedBy(id, a.create.e);
        return flow, None;
      }
      var controller, at := a.create.id, now;
      SaveControllerRule(cfg, startedAt, g, controller, at);
      var r := Update(id, SaveController(startedAt, g, controller, at), Some(at),
                      SaveControllerChanges(startedAt, g, controller, at), AfterSaveController(startedAt, g, controller, at));
      if r.Ok? {
        flow, job := AnnounceController(id, r.value, g);
      } else if r.error == JobStateConflict {
        flow, job := RecordWhileClosing(id, startedAt, g, controller, at);
      } else {
        assert AfterSaveController(startedAt, g, controller, at)(r, now) == RaiseStoreError(r.error);
        flow := Raised(id, r.error);
        job := None;
      }
    }

    /** Close has won while the create call was in flight; the id is recorded all the same. */
    method RecordWhileClosing(id: string, startedAt: Option<Time>, g: Snapshot, controller: RJobId, at: Time)
      returns (flow: Flow, job: Option<ControlJob>)
      requires At(id, SaveControllerWhileClosing(startedAt, g, controller, at))
      modifies this`now, this`owed, this`m, this`dead, this`outside, this`answers, store
      ensures job.Some? ==> At(id, EnterController(job.value, g))
      ensures job.None? ==> At(id, Thrown(flow))
    {
      SaveWhileClosingRule(cfg, startedAt, g, controller, at);
      var r := Update(id, SaveControllerWhileClosing(startedAt, g, controller, at), Some(at),
                      SaveWhileClosingChanges(startedAt, g, controller, at), AfterSaveWhileClosing(startedAt, g, controller, at));
      if r.Err? {
        flow := Raised(id, r.error);
        return flow, None;
      }
      flow, job := AnnounceController(id, r.value, g);
    }

    method AnnounceController(id: string, row: ControlJob, g: Snapshot) returns (flow: Flow, job: Option<ControlJob>)
      requires At(id, Log(ControllerSubmitted, if row.status == Closing then Idle else EnterController(row, g)))
      modifies this`now, this`owed, this`m, this`dead, this`outside, this`answers, store
      ensures job.Some? ==> At(id, EnterController(job.value, g))
      ensures job.None? ==> At(id, Thrown(flow))
    {
      if row.status == Closing {
        Event(id, ControllerSubmitted, row.phase, Idle);
        return Returned, None;
      }
      Event(id, ControllerSubmitted, row.phase, EnterController(row, g));
      return Returned, Some(row);
    }

    method Supervise(id: string, job: ControlJob, g: Snapshot) returns (flow: Flow)
      requires At(id, EnterController(job, g))
      modifies this`now, this`owed, this`m, this`dead, this`outside, this`answers, store
      ensures At(id, Thrown(flow))
    {
      if g.state != RJobRunning || !g.ready {
        flow := FailTurn(id, GatewayLostDuringRun);
        return;
      }
      if job.controllerId.None? {
        return UnexpectedRaised;
      }
      var controller := job.controllerId.value;
      PollControllerRule(cfg, controller, job.episodes, g);
      var a := Call(id, PollController(controller, job.episodes, g), AfterPollController(controller, job.episodes, g));
      if a.poll.PollRaises? {
        flow := RaisedBy(id, a.poll.e);
        return;
      }
      flow := JudgeController(id, job.episodes, g, a.poll.snapshot);
    }

    method JudgeController(id: string, episodes: Episodes, g: Snapshot, c: Snapshot) returns (flow: Flow)
      requires At(id, SaveControllerStatus(episodes, g, c))
      modifies this`now, this`owed, this`m, this`dead, this`outside, this`answers, store
      ensures At(id, Thrown(flow))
    {
      SaveControllerStatusRule(cfg, episodes, g, c);
      var r := Update(id, SaveControllerStatus(episodes, g, c), None, SaveControllerStatusChanges(episodes, g, c),
                      AfterSaveControllerStatus(cfg, episodes, g, c));
      if r.Err? {
        flow := Raised(id, r.error);
        return;
      }
      var job := r.value;
      ghost var pc := AfterControllerStatus(cfg, job, now, g, c);
      assert At(id, pc);
      if job.status == Closing {
        return Returned;
      }
      if c.state == RJobSucceeded {
        if job.binding.Some? && ResultsComplete(job.binding.value, c) {
          assert pc == PC.Succeed(g, c);
          flow := RecordSuccess(id, g, c);
        } else {
          assert pc == FailRead(EpisodeResultsIncomplete, InBody);
          flow := FailTurn(id, EpisodeResultsIncomplete);
        }
      } else if c.state == RJobFailed || c.state == RJobCancelled {
        assert pc == FailRead(SafactoryRJobFailed, InBody);
        flow := FailTurn(id, SafactoryRJobFailed);
      } else if ControllerTimedOut(cfg, job, now) {
        assert pc == FailRead(SafactoryRJobTimeout, InBody);
        flow := FailTurn(id, SafactoryRJobTimeout);
      } else {
        assert pc == Log(ReconciliationCompleted, Idle);
        Event(id, ReconciliationCompleted, job.phase, Idle);
        return Returned;
      }
    }

    method RecordSuccess(id: string, g: Snapshot, c: Snapshot) returns (flow: Flow)
      requires At(id, PC.Succeed(g, c))
      modifies this`now, this`owed, this`m, this`dead, this`outside, store
      ensures At(id, Thrown(flow))
    {
      SucceedRule(cfg, g, c);
      var r := Update(id, PC.Succeed(g, c), None, SucceedChanges(g, c), AfterSucceed(g, c));
      if r.Err? {
        flow := Raised(id, r.error);
        return;
      }
      Event(id, JobSucceeded, r.value.phase, Idle);
      return Returned;
    }

    method Control(id: string, g: Snapshot) returns (flow: Flow)
      requires At(id, CheckBeforeController(g))
      modifies this`now, this`owed, this`m, this`dead, this`outside, this`answers, store
      ensures At(id, Thrown(flow))
    {
      CheckBeforeControllerRule(cfg, g);
      var job := Read(id, CheckBeforeController(g), AfterCheckBeforeController(g));
      ghost var pc := AfterCheckBeforeController(g)(job, now);
      if job.status == Closing {
        return Returned;
      }
      if job.controllerId.Some? {
        assert pc == EnterController(job, g);
        flow := Supervise(id, job, g);
      } else if job.gatewayUrl.None? {
        assert pc == Raise(Unexpected);
        flow := RaisedBy(id, Unexpected);
      } else {
        assert pc == CreateController(job.startedAt, g);
        flow := StartController(id, job.startedAt, g);
      }
    }

    method StartController(id: string, startedAt: Option<Time>, g: Snapshot) returns (flow: Flow)
      requires At(id, CreateController(startedAt, g))
      modifies this`now, this`owed, this`m, this`dead, this`outside, this`answers, store
      ensures At(id, Thrown(flow))
    {
      var submitted;
      flow, submitted := SubmitSafactory(id, startedAt, g);
      if submitted.Some? {
        flow := Supervise(id, submitted.value, g);
      }
    }

    method Probe(id: string, g: Snapshot) returns (flow: Flow)
      requires At(id, CheckHealth(g))
      modifies this`now, this`owed, this`m, this`dead, this`outside, this`answers, store
      ensures At(id, Thrown(flow))
    {
      CheckHealthRule(cfg, g);
      var a := Call(id, CheckHealth(g), AfterCheckHealth(g));
      if a.ready.ReadyRaises? {
        flow := RaisedBy(id, a.ready.e);
        return;
      }
      var ready := a.ready.ok;
      CheckAfterHealthRule(cfg, g, ready);
      var job := Read(id, CheckAfterHealth(g, ready), AfterCheckAfterHealth(cfg, g, ready));
      if job.status == Closing {
        return Returned;
      }
      if !ready {
        if job.controllerId.Some? {
          flow := FailTurn(id, GatewayLostDuringRun);
        } else {
          flow := NotHealthy(id);
        }
        return;
      }
      if job.gatewayUrl.Some? && job.gatewayUrl.value != UrlOf(cfg, g) {
        flow := FailTurn(id, GatewayAddressChanged);
        return;
      }
      if job.gatewayUrl.None? {
        flow := RecordUrl(id, g);
      } else {
        flow := Control(id, g);
      }
    }

    method NotHealthy(id: string) returns (flow: Flow)
      requires At(id, SaveHealthPhase)
      modifies this`now, this`owed, this`m, this`dead, this`outside, this`answers, store
      ensures At(id, Thrown(flow))
    {
      SaveHealthPhaseRule(cfg);
      var r := Update(id, SaveHealthPhase, None, SaveHealthPhaseChanges(), AfterSaveHealthPhase(cfg));
      if r.Err? {
        flow := Raised(id, r.error);
        return;
      }
      if TimedOut(cfg, r.value, now) {
        flow := FailTurn(id, GatewayHealthTimeout);
        return;
      }
      return Returned;
    }

    method RecordUrl(id: string, g: Snapshot) returns (flow: Flow)
      requires At(id, SaveUrl(g))
      modifies this`now, this`owed, this`m, this`dead, this`outside, this`answers, store
      ensures At(id, Thrown(flow))
    {
      SaveUrlRule(cfg, g);
      var r := Update(id, SaveUrl(g), None, SaveUrlChanges(cfg, g), AfterSaveUrl(g));
      if r.Err? {
        flow := Raised(id, r.error);
        return;
      }
      if r.value.status == Closing {
        return Returned;
      }
      Event(id, GatewayReady, r.value.phase, CheckBeforeController(g));
      flow := Control(id, g);
    }

    method WatchGateway(id: string, gateway: RJobId) returns (flow: Flow)
      requires At(id, PollGateway(gateway))
      modifies this`now, this`owed, this`m, this`dead, this`outside, this`answers, store
      ensures At(id, Thrown(flow))
    {
      PollGatewayRule(cfg, gateway);
      var a := Call(id, PollGateway(gateway), AfterPollGateway(gateway));
      if a.poll.PollRaises? {
        flow := RaisedBy(id, a.poll.e);
        return;
      }
      var g := a.poll.snapshot;
      SaveGatewayStatusRule(cfg, g);
      var r := Update(id, SaveGatewayStatus(g), None, SaveGatewayStatusChanges(g), AfterSaveGatewayStatus(cfg, g));
      if r.Err? {
        flow := Raised(id, r.error);
        return;
      }
      var job := r.value;
      assert AfterSaveGatewayStatus(cfg, g)(r, now) == AfterGatewayStatus(cfg, job, now, g);
      flow := JudgeGateway(id, job, g);
    }

    method JudgeGateway(id: string, job: ControlJob, g: Snapshot) returns (flow: Flow)
      requires At(id, AfterGatewayStatus(cfg, job, now, g))
      modifies this`now, this`owed, this`m, this`dead, this`outside, this`answers, store
      ensures At(id, Thrown(flow))
    {
      ghost var pc := AfterGatewayStatus(cfg, job, now, g);
      if job.status == Closing {
        return Returned;
      }
      if g.state == RJobFailed || g.state == RJobCancelled || g.state == RJobSucceeded {
        assert pc == FailRead(GatewayRJobFailed, InBody);
        flow := FailTurn(id, GatewayRJobFailed);
        return;
      }
      if !GatewayHasRoute(cfg, g) {
        if job.controllerId.Some? {
          assert pc == FailRead(GatewayLostDuringRun, InBody);
          flow := FailTurn(id, GatewayLostDuringRun);
        } else if TimedOut(cfg, job, now) {
          assert pc == FailRead(GatewayReadyTimeout, InBody);
          flow := FailTurn(id, GatewayReadyTimeout);
        } else {
          assert pc == Idle;
          flow := Returned;
        }
        return;
      }
      assert pc == CheckHealth(g);
      flow := Probe(id, g);
    }

    // --- Binding files ---------------------------------------------------------------------------

    /** Nothing is under way, and what was listed is forgotten. */
    ghost predicate Down()
      reads this, store, files
    {
      Sound() && here(Quiet(W(), map[], {}))
    }

    /** The next catalogue answer that fits the range, with a fresh name for the staging directory. */
    method NextCatalog(rangeId: string) returns (catalog: FileManager.CatalogAnswer, suffix: string, usable: bool)
      modifies this`catalogs
      ensures catalog.Found? ==> catalog.range.rangeId == rangeId
      ensures usable ==> FileManager.STAGING_PREFIX + suffix !in files.dirs
                         && files.place != FileManager.Inside(FileManager.STAGING_PREFIX + suffix)
    {
      catalog, suffix := FileManager.CatalogRaises, "";
      if catalogs != [] {
        catalog, suffix := catalogs[0].0, catalogs[0].1;
        catalogs := catalogs[1..];
      }
      if catalog.Found? && catalog.range.rangeId != rangeId {
        catalog := FileManager.NoRange;
      }
      usable := FileManager.STAGING_PREFIX + suffix !in files.dirs
                && files.place != FileManager.Inside(FileManager.STAGING_PREFIX + suffix);
    }

    /** In the world w a bind call has been made for the job, and nothing done since. */
    ghost predicate Binding(id: string, w: World, catalog: FileManager.CatalogAnswer, o: FileManager.Outcome)
      reads this, store, files
    {
      (&& Sound() && !dead && here(Spot(w, listed, sweeping, id, BindFiles))
       && W() == w.(files := W().files) && id in w.jobs && Called(w, id, catalog, o, W().files)) == true
    }

    ghost method Become(machines: map<string, JobState>)
      requires Steady()
      modifies this`m
      ensures Steady() && W() == old(W()).(m := machines)
    {
      m := machines;
    }

    method Settle(id: string, ghost w: World, ghost catalog: FileManager.CatalogAnswer, o: FileManager.Outcome)
      requires Binding(id, w, catalog, o) && !o.Died?
      modifies this`m
      ensures At(id, AfterBind(o))
    {
      ghost var v := BindHere(cfg, mc, here, Spot(w, listed, sweeping, id, BindFiles), catalog, o, W().files);
      Become(v.m);
    }

    /** The process has died in the bind call. */
    method DieBinding(id: string, ghost w: World, ghost catalog: FileManager.CatalogAnswer)
      requires Binding(id, w, catalog, FileManager.Died) && doomed
      modifies this`dead, this`m, this`owed
      ensures dead && Down()
    {
      ghost var v := DeathHere(cfg, mc, here, Spot(w, listed, sweeping, id, BindFiles), catalog, W().files);
      Perish(v.m);
    }

    lemma JobIsThere(id: string, pc: PC)
      requires !dead && At(id, pc)
      ensures id in store.jobs && store.jobs[id].jobId == id
    {
      assert Here(cfg, mc, Place(id, pc));
    }

    /** The bind call itself; without a usable catalogue answer the catalogue raises. */
    method CallBind(id: string) returns (o: FileManager.Outcome, ghost w: World, ghost catalog: FileManager.CatalogAnswer)
      requires !dead && At(id, BindFiles)
      modifies this`catalogs, files`dirs, files`results, files`script
      ensures Binding(id, w, catalog, o) && (o.Died? ==> doomed)
    {
      JobIsThere(id, BindFiles);
      w := W();
      FileManager.ManifestsAreOwn(files.sum, files.place, files.dirs, id);
      var answer, suffix, usable := NextCatalog(store.jobs[id].rangeId);
      if usable {
        ghost var made;
        o, made := files.Bind(id, store.jobs[id].rangeId, answer, suffix);
        catalog := answer;
      } else {
        o := if FileManager.SafeName(id) then FileManager.Untrusted else FileManager.Failed(FileManager.UnsafeJobId);
        catalog := FileManager.CatalogRaises;
      }
    }

    /** await asyncio.to_thread(self._files.bind, ...) */
    method Bind(id: string) returns (o: FileManager.Outcome)
      requires At(id, BindFiles)
      modifies this`now, this`owed, this`m, this`dead, this`outside, this`catalogs, store
      modifies files`dirs, files`results, files`script
      ensures !o.Died? && At(id, AfterBind(o))
      ensures old(dead) ==> dead && W() == old(W())
    {
      SuspendTurn(id, BindFiles);
      if dead {
        return FileManager.OsError;
      }
      ghost var w, catalog;
      o, w, catalog := CallBind(id);
      if o.Died? {
        DieBinding(id, w, catalog);
        o := FileManager.OsError;
      } else {
        Settle(id, w, catalog, o);
      }
    }

    /** What became of binding: the turn goes on, or it ends. */
    method BindJobFiles(id: string) returns (flow: Flow, goOn: bool)
      requires At(id, MarkPreparing)
      modifies this`now, this`owed, this`m, this`dead, this`outside, this`answers, this`catalogs, store
      modifies files`dirs, files`results, files`script
      ensures goOn ==> At(id, CheckBeforeGateway)
      ensures !goOn ==> At(id, Thrown(flow))
    {
      MarkRule(cfg);
      var r := Update(id, MarkPreparing, None, MarkChanges(), AfterMark());
      if r.Err? {
        flow := Raised(id, r.error);
        return flow, false;
      }
      flow, goOn := BindAndRecord(id);
    }

    method BindAndRecord(id: string) returns (flow: Flow, goOn: bool)
      requires At(id, BindFiles)
      modifies this`now, this`owed, this`m, this`dead, this`outside, this`answers, this`catalogs, store
      modifies files`dirs, files`results, files`script
      ensures goOn ==> At(id, CheckBeforeGateway)
      ensures !goOn ==> At(id, Thrown(flow))
    {
      var o := Bind(id);
      flow, goOn := AfterBinding(id, o);
    }

    method AfterBinding(id: string, o: FileManager.Outcome) returns (flow: Flow, goOn: bool)
      requires !o.Died? && At(id, AfterBind(o))
      modifies this`now, this`owed, this`m, this`dead, this`outside, this`answers, store
      ensures goOn ==> At(id, CheckBeforeGateway)
      ensures !goOn ==> At(id, Thrown(flow))
    {
      goOn := false;
      if o.Failed? {
        flow := BindingFailed(id);
      } else if o.Untrusted? {
        flow := RaisedBy(id, Dependency);
      } else if o.OsError? {
        flow := RaisedBy(id, Unexpected);
      } else {
        flow, goOn := RecordBinding(id, Summary(o.binding));
      }
    }

    method BindingFailed(id: string) returns (flow: Flow)
      requires At(id, FailRead(FileBindingFailed, InBinding))
      modifies this`now, this`owed, this`m, this`dead, this`outside, this`answers, store
      ensures At(id, Thrown(flow))
    {
      flow := Fail(id, FileBindingFailed, InBinding);
      if flow.Returned? {
        UnboundRule(cfg);
        var job := Read(id, AfterBindFailure, AfterUnbound());
        if !Halted(job) {
          flow := RaisedBy(id, Unexpected);
        }
      }
    }

    method RecordBinding(id: string, binding: ControlStore.Binding) returns (flow: Flow, goOn: bool)
      requires At(id, SaveBinding(binding))
      modifies this`now, this`owed, this`m, this`dead, this`outside, store
      ensures goOn ==> At(id, CheckBeforeGateway)
      ensures !goOn ==> At(id, Thrown(flow))
    {
      SaveBindingRule(cfg, binding);
      var r := Update(id, SaveBinding(binding), None, SaveBindingChanges(binding), AfterSaveBinding(binding));
      if r.Err? {
        flow := Raised(id, r.error);
        return flow, false;
      }
      if Halted(r.value) {
        Event(id, JobFilesBound, r.value.phase, Idle);
        return Returned, false;
      }
      Event(id, JobFilesBound, r.value.phase, CheckBeforeGateway);
      return Returned, true;
    }

    method RunGateway(id: string) returns (flow: Flow)
      requires At(id, CheckBeforeGateway)
      modifies this`now, this`owed, this`m, this`dead, this`outside, this`answers, store
      ensures At(id, Thrown(flow))
    {
      CheckBeforeGatewayRule(cfg);
      var job := Read(id, CheckBeforeGateway, AfterCheckBeforeGateway());
      if job.status == Closing {
        return Returned;
      }
      if job.gatewayId.Some? {
        flow := WatchGateway(id, job.gatewayId.value);
        return;
      }
      var gateway;
      flow, gateway := SubmitGateway(id);
      if gateway.Some? {
        flow := WatchGateway(id, gateway.value);
      }
    }

    method Reconcile(id: string, attempt: nat) returns (flow: Flow)
      requires At(id, BumpAttempt(attempt))
      modifies this`now, this`owed, this`m, this`dead, this`outside, this`answers, this`catalogs, store
      modifies files`dirs, files`results, files`script
      ensures At(id, Thrown(flow))
    {
      BumpRule(cfg, attempt);
      var r := Update(id, BumpAttempt(attempt), None, BumpChanges(attempt), AfterBump(attempt));
      if r.Err? {
        flow := Raised(id, r.error);
        return;
      }
      var job := r.value;
      if job.status == Closing {
        return Returned;
      }
      if job.binding.Some? {
        Event(id, ReconciliationStarted, job.phase, CheckBeforeGateway);
        flow := RunGateway(id);
        return;
      }
      Event(id, ReconciliationStarted, job.phase, MarkPreparing);
      var goOn;
      flow, goOn := BindJobFiles(id);
      if goOn {
        flow := RunGateway(id);
      }
    }

    /** A turn with its exception handlers; an exception that leaves a handler ends the loop. */
    method Turn(id: string, attempt: nat) returns (flow: Flow)
      requires At(id, BumpAttempt(attempt))
      modifies this`now, this`owed, this`m, this`dead, this`outside, this`answers, this`catalogs, store
      modifies files`dirs, files`results, files`script
      ensures At(id, if flow.Returned? then Idle else Escaped)
    {
      flow := Reconcile(id, attempt);
      flow := Handle(id, flow);
    }

    /** The exception handlers around a turn. */
    method Handle(id: string, thrown: Flow) returns (flow: Flow)
      requires At(id, Thrown(thrown))
      modifies this`now, this`owed, this`m, this`dead, this`outside, this`answers, store
      ensures At(id, if flow.Returned? then Idle else Escaped)
    {
      if thrown.DependencyRaised? {
        flow := HandleDependencyError(id);
      } else if thrown.UnexpectedRaised? {
        flow := FailInHandler(id, InternalOrchestrationError);
      } else {
        flow := Returned;
      }
    }

    method HandleDependencyError(id: string) returns (flow: Flow)
      requires At(id, OnDependencyError)
      modifies this`now, this`owed, this`m, this`dead, this`outside, this`answers, store
      ensures At(id, if flow.Returned? then Idle else Escaped)
    {
      DependencyErrorRule(cfg);
      var job := Read(id, OnDependencyError, AfterDependencyError(cfg));
      ghost var pc := AfterDependencyError(cfg)(job, now);
      if (job.controllerId.Some? && ControllerTimedOut(cfg, job, now)) || (job.controllerId.None? && TimedOut(cfg, job, now)) {
        assert pc == FailRead(UnavailableDependency, InHandler);
        flow := FailInHandler(id, UnavailableDependency);
      } else {
        assert pc == Idle;
        flow := Returned;
      }
    }

    method FailInHandler(id: string, why: FailureReason) returns (flow: Flow)
      requires At(id, FailRead(why, InHandler))
      modifies this`now, this`owed, this`m, this`dead, this`outside, this`answers, store
      ensures At(id, if flow.Returned? then Idle else Escaped)
    {
      flow := Fail(id, why, InHandler);
      assert Left(InHandler, flow) == if flow.Returned? then Idle else Escaped;
    }

    // --- The loop --------------------------------------------------------------------------------

    /** The rows a listing selects, each once; the order is left open. */
    method Select(turns: bool) returns (rows: seq<ControlJob>)
      requires store.Valid()
      ensures forall r :: r in rows <==>
                r.jobId in store.jobs && store.jobs[r.jobId] == r && Selected(turns, r)
      ensures Apiece(rows)
    {
      rows := [];
      var ids := store.jobs.Keys;
      while ids != {}
        invariant ids <= store.jobs.Keys
        invariant forall r :: r in rows <==>
                    r.jobId in store.jobs.Keys - ids && store.jobs[r.jobId] == r && Selected(turns, r)
        invariant forall i, j :: 0 <= i < j < |rows| ==> rows[i].jobId != rows[j].jobId
        decreases |ids|
      {
        var id :| id in ids;
        ids := ids - {id};
        var row := store.jobs[id];
        if Selected(turns, row) {
          rows := rows + [row];
        }
      }
    }

    lemma Resting()
      requires Down()
      ensures Sim() && AllIdle(m)
    {
      QueueIsForgotten(cfg, mc, here, Quiet(W(), map[], {}));
    }

    /** All machines are noted as they are now. */
    ghost method NoteAll()
      requires Down()
      modifies this`past
      ensures Down() && past == m && Onward(mc, old(past), m) && Onward(mc, m, m)
    {
      NotingHere(cfg, mc, here, Quiet(W(), map[], {}));
      Note(m);
    }

    ghost method Note(states: map<string, JobState>)
      requires Steady()
      modifies this`past
      ensures Steady() && past == states && W() == old(W()).(past := states)
    {
      past := states;
    }

    /** The loop is suspended between two visits. */
    method SuspendLoop()
      requires Down() && !dead
      modifies this`now, this`owed, this`m, this`dead, this`outside, store
      ensures Down()
    {
      ghost var x := Quiet(W(), map[], {});
      Resting();
      Suspend();
      if !dead {
        StillQuiet(cfg, mc, here, x, W());
      }
    }

    /** await store.list_active(), or await store.list_cleanup_pending(): a snapshot of the selected rows */
    method List(turns: bool) returns (rows: seq<ControlJob>)
      requires Down() && !dead
      modifies this`now, this`owed, this`m, this`dead, this`past, this`outside, this`listed, this`sweeping, store
      ensures if dead then Down() else Between() && RowsWait(Kept(), rows, 0, turns)
      ensures Listing(m, rows, turns) && past == m && Onward(mc, old(m), m)
      ensures Onward(mc, m, m) && Onward(mc, old(m), old(m))
    {
      NoteAll();
      SuspendLoop();
      rows := Select(turns);
      if dead {
        Resting();
        RowsAreListed(cfg, mc, W(), rows, turns);
        NoteAll();
      } else {
        MarkListed(rows, turns);
        NoteListing();
      }
    }

    /** The machines of the listed rows are marked. */
    ghost method MarkListed(rows: seq<ControlJob>, turns: bool)
      requires Down() && !dead && Apiece(rows)
      requires forall r :: r in rows <==> r.jobId in store.jobs && store.jobs[r.jobId] == r && Selected(turns, r)
      modifies this`m, this`listed, this`sweeping
      ensures Between() && RowsWait(Kept(), rows, 0, turns)
      ensures Listing(m, rows, turns)
    {
      ListingHere(cfg, mc, here, W(), turns);
      ListedRowsWait(cfg, mc, here, W(), turns, rows);
      Mark(if turns then ListActive else ListCleanup);
    }

    ghost method Mark(i: Input)
      requires Steady()
      modifies this`m, this`listed, this`sweeping
      ensures Steady() && W() == WithAll(mc, old(W()), i)
      ensures listed == (if i.ListActive? then ListedIn(m) else map[])
      ensures sweeping == (if i.ListActive? then {} else SweptIn(m))
    {
      m := WithAll(mc, W(), i).m;
      listed := if i.ListActive? then ListedIn(m) else map[];
      sweeping := if i.ListActive? then {} else SweptIn(m);
    }

    ghost method NoteListing()
      requires Between()
      modifies this`past
      ensures Between() && past == m && Onward(mc, old(past), m) && Onward(mc, m, m)
    {
      NotingHere(cfg, mc, here, Quiet(W(), listed, sweeping));
      Note(m);
    }

    ghost method BeginTurnOf(row: ControlJob)
      requires Between() && row.jobId in listed && listed[row.jobId] == row
      modifies this`m, this`listed, this`sweeping, this`begun
      ensures At(row.jobId, BumpAttempt(row.attempt)) && listed == old(listed) - {row.jobId}
      ensures row.jobId in m && begun == map[row.jobId := m[row.jobId]]
    {
      TurnHere(cfg, mc, here, Quiet(W(), listed, sweeping), row);
      Step(row.jobId, BeginTurn);
    }

    ghost method BeginSweepOf(id: string)
      requires Between() && id in sweeping
      modifies this`m, this`listed, this`sweeping, this`begun
      ensures At(id, CleanRead(InSweep)) && sweeping == old(sweeping) - {id}
      ensures id in m && begun == map[id := m[id]]
    {
      SweepHere(cfg, mc, here, Quiet(W(), listed, sweeping), id);
      Step(id, BeginSweep);
    }

    /** The job leaves the queue, and its machine takes this step. */
    ghost method Step(id: string, i: Input)
      requires Steady() && !dead && id in m
      modifies this`m, this`listed, this`sweeping, this`begun
      ensures Steady() && W() == WithBegin(mc, old(W()), id, i) && m == old(m)[id := mc.next(old(m)[id], i)]
      ensures begun == map[id := m[id]]
      ensures listed == old(listed) - {id} && sweeping == old(sweeping) - {id}
    {
      listed, sweeping := listed - {id}, sweeping - {id};
      m := Moved(mc, m, id, i);
      begun := map[id := m[id]];
    }

    /** The visit of this row has begun in the state begin. */
    ghost function Kept(): Notes
      reads this`listed, this`sweeping, this`past, this`begun
    {
      Notes(listed, sweeping, past, begun)
    }

    /** The visit of the next row begins. */
    ghost method StartVisit(table: map<string, JobState>, rows: seq<ControlJob>, visits: seq<Visit>, turns: bool)
      returns (begin: JobState)
      requires Between() && |visits| < |rows| && Ready(mc, Kept(), table, rows, visits, turns)
      modifies this`m, this`listed, this`sweeping, this`begun
      ensures Underway(mc, Kept(), table, rows, visits, begin, turns)
      ensures !dead && At(rows[|visits|].jobId, FirstAwait(turns, rows[|visits|]))
    {
      var row := rows[|visits|];
      if turns {
        TurnTaken(listed, rows, |visits|);
        BeginTurnOf(row);
      } else {
        SweepTaken(sweeping, rows, |visits|);
        BeginSweepOf(row.jobId);
      }
      VisitBegins(cfg, mc, here, Place(row.jobId, FirstAwait(turns, row)), table, rows, visits, turns);
      begin := m[row.jobId];
    }

    /** The visit has returned. */
    ghost method EndVisit(table: map<string, JobState>, rows: seq<ControlJob>, visits: seq<Visit>, begin: JobState,
                          turns: bool) returns (v: Visit)
      requires Underway(mc, Kept(), table, rows, visits, begin, turns) && !dead && At(rows[|visits|].jobId, Idle)
      modifies this`past, this`begun
      ensures Between() && Ready(mc, Kept(), table, rows, visits + [v], turns)
    {
      var id := rows[|visits|].jobId;
      VisitEnds(cfg, mc, here, Place(id, Idle), table, rows, visits, begin, turns);
      v := Visit(id, begin, m[id]);
      NoteEnd(id);
    }

    ghost method NoteEnd(id: string)
      requires Steady() && id in m
      modifies this`past, this`begun
      ensures Steady() && past == old(past)[id := m[id]] && W() == old(W()).(past := past, begun := map[])
    {
      past, begun := past[id := m[id]], map[];
    }

    /** How the visit of the next row has gone: it is made, or the pass is over. */
    ghost predicate Gone(end: PassEnd, table: map<string, JobState>, rows: seq<ControlJob>, visits: seq<Visit>, v: Visit,
                         turns: bool)
      reads this, store, files
    {
      (match end
       case Through => Between() && Ready(mc, Kept(), table, rows, visits + [v], turns)
       case Died => dead && Down() && Progress(mc, table, rows, visits, past, turns)
       case LoopEnded(id) =>
         && !dead && At(id, Escaped)
         && Underway(mc, Kept(), table, rows, visits, v.begin, turns) && id == rows[|visits|].jobId
      ) == true
    }

    /** The turn of the next listed row. */
    method TakeTurn(ghost table: map<string, JobState>, rows: seq<ControlJob>, n: nat, ghost visits: seq<Visit>)
      returns (end: PassEnd, ghost v: Visit)
      requires |visits| == n < |rows| && Between() && Ready(mc, Kept(), table, rows, visits, true)
      modifies this`now, this`owed, this`m, this`dead, this`outside, this`answers, this`catalogs, store
      modifies this`listed, this`sweeping, this`past, this`begun, files`dirs, files`results, files`script
      ensures Gone(end, table, rows, visits, v, true)
    {
      ghost var begin := StartVisit(table, rows, visits, true);
      end, v := FinishTurn(table, rows, n, visits, begin);
    }

    /** The begun turn is taken to its end. */
    method FinishTurn(ghost table: map<string, JobState>, rows: seq<ControlJob>, n: nat, ghost visits: seq<Visit>,
                      ghost begin: JobState) returns (end: PassEnd, ghost v: Visit)
      requires |visits| == n < |rows| && Underway(mc, Kept(), table, rows, visits, begin, true)
      requires At(rows[n].jobId, BumpAttempt(rows[n].attempt))
      modifies this`now, this`owed, this`m, this`dead, this`outside, this`answers, this`catalogs, store
      modifies this`past, this`begun, files`dirs, files`results, files`script
      ensures Gone(end, table, rows, visits, v, true)
    {
      ghost var kept := Kept();
      var flow := Turn(rows[n].jobId, rows[n].attempt);
      assert Kept() == kept;
      end, v := AfterVisit(table, rows, n, visits, begin, flow, true);
    }

    /** The cleanup of the next flagged row. */
    method Sweep(ghost table: map<string, JobState>, rows: seq<ControlJob>, n: nat, ghost visits: seq<Visit>)
      returns (end: PassEnd, ghost v: Visit)
      requires |visits| == n < |rows| && Between() && Ready(mc, Kept(), table, rows, visits, false)
      modifies this`now, this`owed, this`m, this`dead, this`outside, this`answers, store
      modifies this`listed, this`sweeping, this`past, this`begun
      ensures Gone(end, table, rows, visits, v, false)
    {
      ghost var begin := StartVisit(table, rows, visits, false);
      end, v := FinishSweep(table, rows, n, visits, begin);
    }

    /** The begun cleanup is taken to its end. */
    method FinishSweep(ghost table: map<string, JobState>, rows: seq<ControlJob>, n: nat, ghost visits: seq<Visit>,
                       ghost begin: JobState) returns (end: PassEnd, ghost v: Visit)
      requires |visits| == n < |rows| && Underway(mc, Kept(), table, rows, visits, begin, false)
      requires At(rows[n].jobId, CleanRead(InSweep))
      modifies this`now, this`owed, this`m, this`dead, this`outside, this`answers, store
      modifies this`past, this`begun
      ensures Gone(end, table, rows, visits, v, false)
    {
      ghost var kept := Kept();
      var flow := CleanupInSweep(rows[n].jobId);
      assert Kept() == kept;
      end, v := AfterVisit(table, rows, n, visits, begin, flow, false);
    }

    method CleanupInSweep(id: string) returns (flow: Flow)
      requires At(id, CleanRead(InSweep))
      modifies this`now, this`owed, this`m, this`dead, this`outside, this`answers, store
      ensures At(id, if flow.Returned? then Idle else Escaped)
    {
      flow := Cleanup(id, InSweep);
      assert Left(InSweep, flow) == if flow.Returned? then Idle else Escaped;
    }

    /** A visit is over: the process has died, or an exception has left it, or it has returned. */
    method AfterVisit(ghost table: map<string, JobState>, rows: seq<ControlJob>, n: nat, ghost visits: seq<Visit>,
                      ghost begin: JobState, flow: Flow, ghost turns: bool) returns (end: PassEnd, ghost v: Visit)
      requires |visits| == n < |rows| && Underway(mc, Kept(), table, rows, visits, begin, turns)
      requires At(rows[n].jobId, if flow.Returned? then Idle else Escaped)
      modifies this`past, this`begun
      ensures Gone(end, table, rows, visits, v, turns)
    {
      v := Visit(rows[n].jobId, begin, begin);
      if dead {
        return Died, v;
      }
      if !flow.Returned? {
        return LoopEnded(rows[n].jobId), v;
      }
      v := EndVisit(table, rows, visits, begin, turns);
      return Through, v;
    }

    ghost predicate WaitsFor(rows: seq<ControlJob>, n: nat, turns: bool)
      reads this
    {
      forall k :: n <= k < |rows| ==>
        rows[k].jobId in m && if turns then m[rows[k].jobId].listed == Some(rows[k]) else m[rows[k].jobId].swept
    }

    /** How far a leg has come when it stops in this way: all the way, or up to the visit that ended the loop. */
    ghost predicate Stopped(leg: Leg, end: PassEnd, turns: bool)
      reads this
    {
      match end
      case Through => |leg.visits| == |leg.rows|
      case Died => true
      case LoopEnded(id) =>
        && |leg.visits| < |leg.rows| && leg.rows[|leg.visits|].jobId == id
        && id in m && m[id].core.pc.Escaped?
        && WaitsFor(leg.rows, |leg.visits| + 1, turns)
    }

    /** One turn for every row listed as active. */
    method TurnPass() returns (end: PassEnd, ghost leg: Leg)
      requires Down() && !dead
      modifies this, store, files`dirs, files`results, files`script
      ensures Sim() && (!end.LoopEnded? ==> Down()) && (dead <==> end.Died?)
      ensures leg.before == old(m) && leg.after == m && LegOf(mc, leg, true) && Stopped(leg, end, true)
    {
      var rows := List(true);
      ghost var table := m;
      ghost var visits: seq<Visit> := [];
      NothingVisited(mc, table, rows, true);
      if dead {
        leg := Perished(old(m), table, rows, visits, true);
        return Died, leg;
      }
      for n := 0 to |rows|
        invariant |visits| == n && Between() && Ready(mc, Kept(), table, rows, visits, true)
      {
        ghost var v;
        end, v := TakeTurn(table, rows, n, visits);
        if !end.Through? {
          leg := BrokenOff(end, old(m), table, rows, visits, v, true);
          return;
        }
        visits := visits + [v];
      }
      leg := RanThrough(old(m), table, rows, visits, true);
      return Through, leg;
    }

    ghost method RanThrough(before: map<string, JobState>, table: map<string, JobState>, rows: seq<ControlJob>,
                            visits: seq<Visit>, turns: bool) returns (leg: Leg)
      requires Onward(mc, before, before) && Onward(mc, before, table) && Onward(mc, table, table)
      requires Progress(mc, table, rows, visits, past, turns) && |visits| == |rows| && Between()
      ensures Down() && Sim()
      ensures leg.before == before && leg.after == m && LegOf(mc, leg, turns) && Stopped(leg, Through, turns)
    {
      leg := Leg(before, table, rows, visits, past, m);
      QueueIsForgotten(cfg, mc, here, Quiet(W(), listed, sweeping));
      NotedIsBehind(cfg, mc, W());
    }

    ghost method Perished(before: map<string, JobState>, table: map<string, JobState>, rows: seq<ControlJob>,
                          visits: seq<Visit>, turns: bool) returns (leg: Leg)
      requires Onward(mc, before, before) && Onward(mc, before, table) && Onward(mc, table, table)
      requires Progress(mc, table, rows, visits, past, turns) && dead && Down()
      ensures Down() && Sim()
      ensures leg.before == before && leg.after == m && LegOf(mc, leg, turns) && Stopped(leg, Died, turns)
    {
      leg := Leg(before, table, rows, visits, past, m);
      Resting();
      NotedIsBehind(cfg, mc, W());
    }

    ghost method BrokenOff(end: PassEnd, before: map<string, JobState>, table: map<string, JobState>,
                           rows: seq<ControlJob>, visits: seq<Visit>, v: Visit, turns: bool) returns (leg: Leg)
      requires Onward(mc, before, before) && Onward(mc, before, table) && Onward(mc, table, table)
      requires |visits| < |rows| && !end.Through? && Gone(end, table, rows, visits, v, turns)
      ensures Sim() && (end.Died? ==> Down()) && (dead <==> end.Died?)
      ensures leg.before == before && leg.after == m && LegOf(mc, leg, turns) && Stopped(leg, end, turns)
    {
      if end.LoopEnded? {
        leg := Leg(before, table, rows, visits, past, m);
        StandingHere(cfg, mc, here, Place(end.id, Escaped));
      } else {
        leg := Perished(before, table, rows, visits, turns);
      }
    }

    /** One cleanup for every row listed for it. */
    method SweepPass() returns (end: PassEnd, ghost leg: Leg)
      requires Down() && !dead
      modifies this, store
      ensures Sim() && (!end.LoopEnded? ==> Down()) && (dead <==> end.Died?)
      ensures leg.before == old(m) && leg.after == m && LegOf(mc, leg, false) && Stopped(leg, end, false)
    {
      var rows := List(false);
      ghost var table := m;
      ghost var visits: seq<Visit> := [];
      NothingVisited(mc, table, rows, false);
      if dead {
        leg := Perished(old(m), table, rows, visits, false);
        return Died, leg;
      }
      for n := 0 to |rows|
        invariant |visits| == n && Between() && Ready(mc, Kept(), table, rows, visits, false)
      {
        ghost var v;
        end, v := Sweep(table, rows, n, visits);
        if !end.Through? {
          leg := BrokenOff(end, old(m), table, rows, visits, v, false);
          return;
        }
        visits := visits + [v];
      }
      leg := RanThrough(old(m), table, rows, visits, false);
      return Through, leg;
    }

    /**
     One pass.  When it runs through, every row listed as active has had a whole turn, and every row flagged
     then a whole cleanup; so all overdue rows have been served.  When an exception has ended the loop, it
     was in the visit of this job, and the rows behind it still wait.
     */
    method ReconcileOnce() returns (end: PassEnd, ghost p: Pass)
      requires Down() && !dead && mc == TheMachine(cfg)
      modifies this, store, files`dirs, files`results, files`script
      ensures Sim() && (!end.LoopEnded? ==> Down()) && (dead <==> end.Died?) && (end.Died? ==> doomed)
      ensures p.end == end && PassRun(cfg, p) && BeforePass(p) == old(m) && AfterPass(p) == m
      ensures end.Through? ==> RowsServed(cfg, old(store.jobs), old(now), store.jobs)
      ensures end.LoopEnded? <==> exists id :: id in m && m[id].core.pc.Escaped?
      ensures end.LoopEnded? ==> Stopped(if p.sweeps.Some? then p.sweeps.value else p.turns, end, p.sweeps.None?)
    {
      ghost var before := W();
      Resting();
      ghost var turns;
      end, turns := TurnPass();
      LegsAreRuns(cfg, turns, true);
      p := Pass(turns, None, end);
      if end.Through? {
        end, p := SweepAfter(turns);
        if end.Through? {
          TablesAreServed(cfg, before, W(), p);
        }
      }
      if !end.LoopEnded? {
        Resting();
      }
    }

    /** The second half of a pass. */
    method SweepAfter(ghost turns: Leg) returns (end: PassEnd, ghost p: Pass)
      requires Down() && !dead && mc == TheMachine(cfg) && LegRun(cfg, turns, true) && AllVisited(turns) && turns.after == m
      modifies this, store
      ensures Sim() && (!end.LoopEnded? ==> Down()) && (dead <==> end.Died?)
      ensures p.turns == turns && p.sweeps.Some? && p.end == end && PassRun(cfg, p) && AfterPass(p) == m
      ensures Stopped(p.sweeps.value, end, false)
    {
      ghost var sweeps;
      end, sweeps := SweepPass();
      LegsAreRuns(cfg, sweeps, false);
      p := Pass(turns, Some(sweeps), end);
    }

    /** The process is started anew. */
    method Restart()
      requires Sim()
      modifies this`m, this`owed, this`past, this`begun, this`dead
      ensures Down() && !dead && Onward(mc, old(m), m)
    {
      AllAreNoted(cfg, mc, W());
      ghost var v := RestartHere(cfg, mc, here, W().(past := m));
      Revive(v.m);
      Resting();
      NotedIsBehind(cfg, mc, W());
    }

    method Revive(ghost machines: map<string, JobState>)
      requires Steady()
      modifies this`m, this`owed, this`past, this`begun, this`dead
      ensures Steady() && !dead && past == old(m)
      ensures W() == old(W()).(past := old(m), m := machines, owed := {}, begun := map[])
    {
      past, begun, owed, dead := m, map[], {}, false;
      m := machines;
    }

    /** Any number of passes, with a restart whenever the process has died or an exception has ended the loop. */
    method Serve(passes: nat) returns (ghost ps: seq<Pass>)
      requires Down() && !dead && mc == TheMachine(cfg)
      modifies this, store, files`dirs, files`results, files`script
      ensures Down() && !dead && |ps| == passes && PassesRun(cfg, ps, m) && PassStart(ps, m, 0) == old(m)
    {
      ps := [];
      for n := 0 to passes
        invariant Down() && !dead && |ps| == n && PassesRun(cfg, ps, m) && PassStart(ps, m, 0) == old(m)
      {
        ps := ServeOnce(ps);
      }
    }

    method ServeOnce(ghost ps: seq<Pass>) returns (ghost next: seq<Pass>)
      requires Down() && !dead && mc == TheMachine(cfg) && PassesRun(cfg, ps, m)
      modifies this, store, files`dirs, files`results, files`script
      ensures Down() && !dead && PassesRun(cfg, next, m)
      ensures |next| == |ps| + 1 && next[..|ps|] == ps && BeforePass(next[|ps|]) == old(m)
    {
      ghost var p;
      var end;
      end, p := ReconcileOnce();
      if end.Through? {
        Resting();
        AllGoOn(cfg, mc, W());
      } else {
        Restart();
      }
      OnwardRuns(cfg, AfterPass(p), m);
      OnePassMore(cfg, ps, old(m), p, m);
      next := ps + [p];
    }
  }
}
