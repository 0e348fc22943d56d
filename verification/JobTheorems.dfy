/**
 The promises of the reconciliation protocol, over every run: any interleaving of passes,
 close requests, clock ticks, crashes and platform answers.
 */
module JobTheorems {
  import opened Wrappers
  import opened ControlStore
  import opened Platform
  import opened JobMachine
  import opened JobInvariant
  import opened JobTraces

  ghost predicate AllInv(cfg: Config, s: JobState) {
    (Inv(cfg, s) && TraceInv(cfg, s.core)) == true
  }

  lemma NextKeepsAll(cfg: Config, s: JobState, i: Input)
    requires AllInv(cfg, s)
    ensures AllInv(cfg, Next(cfg, s, i)) && Lawful(s.core.row, Next(cfg, s, i).core.row)
  {
    NextKeepsInv(cfg, s, i);
    NextTraces(cfg, s, i);
  }

  lemma InitHoldsAll(cfg: Config, jobId: string, rangeId: string, now: Time)
    ensures AllInv(cfg, Init(jobId, rangeId, now))
  {
    InitHolds(cfg, jobId, rangeId, now);
  }

  /** Statuses that may come later in the life of a job. */
  predicate Later(a: JobStatus, b: JobStatus) {
    match a
    case Queued => true
    case Preparing => b != Queued
    case Running => b != Queued && b != Preparing
    case Closing => b == Closing || b == Closed
    case _ => b == a
  }

  lemma WriteOnceTransitive(a: ControlJob, b: ControlJob, c: ControlJob)
    requires WriteOnce(a, b) && WriteOnce(b, c)
    ensures WriteOnce(a, c)
  {
  }

  /** Between any two moments of a run the invariants persist, write-once columns stay, and the status only moves on. */
  lemma {:induction false} RunKeepsAll(cfg: Config, s: JobState, inputs: seq<Input>)
    requires AllInv(cfg, s)
    ensures var end := Run(cfg, s, inputs);
            AllInv(cfg, end) && WriteOnce(s.core.row, end.core.row) && Later(s.core.row.status, end.core.row.status)
    decreases |inputs|
  {
    if inputs != [] {
      var mid := Next(cfg, s, inputs[0]);
      NextKeepsAll(cfg, s, inputs[0]);
      RunKeepsAll(cfg, mid, inputs[1..]);
      WriteOnceTransitive(s.core.row, mid.core.row, Run(cfg, s, inputs).core.row);
    }
  }

  // --- Rows, statuses, events --------------------------------------------------------------

  /** The row of a job is consistent at every moment of every run. */
  lemma RowsAreConsistent(cfg: Config, jobId: string, rangeId: string, now: Time, inputs: seq<Input>)
    ensures RowInv(Run(cfg, Init(jobId, rangeId, now), inputs).core.row)
  {
    InitHoldsAll(cfg, jobId, rangeId, now);
    RunKeepsAll(cfg, Init(jobId, rangeId, now), inputs);
  }

  /** The committed statuses of a job form a path of the lifecycle that ends at the stored status. */
  lemma StatusesFormAPath(cfg: Config, jobId: string, rangeId: string, now: Time, inputs: seq<Input>)
    ensures var end := Run(cfg, Init(jobId, rangeId, now), inputs);
            IsPath(end.hist) && end.hist[|end.hist| - 1] == end.core.row.status
  {
    InitHoldsAll(cfg, jobId, rangeId, now);
    RunKeepsAll(cfg, Init(jobId, rangeId, now), inputs);
  }

  predicate Final(k: EventKind) {
    k == JobSucceeded || k == JobFailed || k == JobClosed
  }

  /** At most one final event and at most one close event is ever logged, and the final one tells the stored status. */
  lemma EventsAreAnnouncedOnce(cfg: Config, jobId: string, rangeId: string, now: Time, inputs: seq<Input>)
    ensures var end := Run(cfg, Init(jobId, rangeId, now), inputs);
            && (forall i, j ::
                  (0 <= i < |end.log| && 0 <= j < |end.log| && Final(end.log[i]) && Final(end.log[j])) ==> i == j)
            && (forall i, j ::
                  (0 <= i < |end.log| && 0 <= j < |end.log| && end.log[i] == end.log[j] == JobCloseRequested) ==> i == j)
            && (JobSucceeded in end.log ==> end.core.row.status == Succeeded)
            && (JobFailed in end.log ==> end.core.row.status == Failed)
            && (JobClosed in end.log ==> end.core.row.status == Closed)
  {
    InitHoldsAll(cfg, jobId, rangeId, now);
    RunKeepsAll(cfg, Init(jobId, rangeId, now), inputs);
    LogIsUnique(Run(cfg, Init(jobId, rangeId, now), inputs));
  }

  lemma LogIsUnique(s: JobState)
    requires LogInv(s)
    ensures forall i, j :: (0 <= i < |s.log| && 0 <= j < |s.log| && Final(s.log[i]) && Final(s.log[j])) ==> i == j
    ensures forall i, j ::
              (0 <= i < |s.log| && 0 <= j < |s.log| && s.log[i] == s.log[j] == JobCloseRequested) ==> i == j
    ensures forall k :: k in s.log ==> Announces(k, s.core.row.status)
  {
    forall i, j | 0 <= i < |s.log| && 0 <= j < |s.log| && Final(s.log[i]) && Final(s.log[j]) ensures i == j {
      assert Announces(s.log[i], s.core.row.status) && Announces(s.log[j], s.core.row.status);
      assert s.log[i] == s.log[j] && Unique(s.log[i]);
    }
    forall i, j | 0 <= i < |s.log| && 0 <= j < |s.log| && s.log[i] == s.log[j] == JobCloseRequested ensures i == j {
      assert Unique(s.log[i]);
    }
  }

  // --- No leaked platform jobs ---------------------------------------------------------------

  /**
   Once a job is closed, or finished with rjobs not kept, and its cleanup flag is down, the
   platform jobs still alive are exactly those whose id never reached the row.
   */
  lemma LeaksAreExactlyOrphans(cfg: Config, jobId: string, rangeId: string, now: Time, inputs: seq<Input>)
    ensures var end := Run(cfg, Init(jobId, rangeId, now), inputs).core;
            Settled(cfg, end.row) ==> Live(end.ops) == Orphans(end.ops)
  {
    InitHoldsAll(cfg, jobId, rangeId, now);
    RunKeepsAll(cfg, Init(jobId, rangeId, now), inputs);
    var end := Run(cfg, Init(jobId, rangeId, now), inputs).core;
    OrphansAreLive(end.ops);
    if Settled(cfg, end.row) {
      SettledHoldsNothing(cfg, end, Run(cfg, Init(jobId, rangeId, now), inputs).now);
    }
  }

  lemma SettledHoldsNothing(cfg: Config, s: Core, now: Time)
    requires CoreInv(cfg, s, now) && Settled(cfg, s.row)
    ensures Held(cfg, s.row, After(s.pc)) == {}
  {
  }

  /** Trace operations in the order they happened. */
  function Ops(t: Trace): seq<Op> {
    match t
    case Start => []
    case Then(b, op) => Ops(b) + [op]
  }

  ghost predicate OrphanedAt(ops: seq<Op>, id: RJobId, p: nat) {
    && p < |ops| && ops[p].Created? && ops[p].id == id
    && forall q :: p < q < |ops| ==> !((ops[q].Recorded? || ops[q].Stopped?) && ops[q].id == id)
  }

  /** An id is orphaned iff after some creation of it, it was neither recorded nor stopped. */
  lemma {:induction false} OrphansByPosition(t: Trace, id: RJobId)
    ensures id in Orphans(t) <==> exists p: nat :: OrphanedAt(Ops(t), id, p)
  {
    if t.Then? {
      OrphansByPosition(t.before, id);
      var b := Ops(t.before);
      assert Ops(t) == b + [t.op];
      if id in Orphans(t) {
        if t.op.Created? && t.op.id == id {
          assert OrphanedAt(Ops(t), id, |b|);
        } else {
          var p: nat :| OrphanedAt(b, id, p);
          assert OrphanedAt(Ops(t), id, p);
        }
      }
      if p: nat :| OrphanedAt(Ops(t), id, p) {
        if p < |b| {
          assert forall q :: p < q < |b| ==> b[q] == Ops(t)[q];
          assert OrphanedAt(b, id, p);
          assert Ops(t)[|b|] == t.op;
        }
      }
    }
  }

  /** The id of a create call that has returned but is not yet in the row. */
  function InFlight(pc: PC): set<RJobId> {
    if pc.SaveGateway? || pc.SaveController? || pc.SaveControllerWhileClosing? then {pc.id} else {}
  }

  /** Inputs under which no created id is lost: no crash before the row write, no raising create that took effect. */
  predicate Careful(s: JobState, i: Input) {
    && (i.Crash? ==> InFlight(s.core.pc) == {})
    && (i.Advance? && (s.core.pc.CreateGateway? || s.core.pc.CreateController?) && i.a.create.CreateRaises? ==>
          i.a.create.effect.None?)
  }

  predicate CarefulRun(cfg: Config, s: JobState, inputs: seq<Input>)
    decreases |inputs|
  {
    inputs == [] || (Careful(s, inputs[0]) && CarefulRun(cfg, Next(cfg, s, inputs[0]), inputs[1..]))
  }

  predicate Creating(pc: PC) {
    pc.CreateGateway? || pc.CreateController? || InFlight(pc) != {}
  }

  lemma OtherStepsCreateNothing(cfg: Config, s: Core, now: Time, a: Answer)
    requires !Creating(s.pc)
    ensures Orphans(StepCore(cfg, s, now, a).ops) <= Orphans(s.ops)
  {
    var r := StepCore(cfg, s, now, a);
    if s.pc.StopController? || s.pc.StopGateway? {
      assert Orphans(r.ops.before) == Orphans(s.ops);
    } else if !s.pc.CleanRead? {
      assert r.ops == s.ops;
    }
  }

  lemma CreatingOrphans(cfg: Config, s: Core, now: Time, a: Answer)
    requires CoreInv(cfg, s, now) && Creating(s.pc)
    requires Orphans(s.ops) <= InFlight(s.pc)
    requires (s.pc.CreateGateway? || s.pc.CreateController?) && a.create.CreateRaises? ==> a.create.effect.None?
    ensures Orphans(StepCore(cfg, s, now, a).ops) <= InFlight(StepCore(cfg, s, now, a).pc)
  {
  }

  lemma CarefulStep(cfg: Config, s: JobState, i: Input)
    requires AllInv(cfg, s) && Careful(s, i) && Orphans(s.core.ops) <= InFlight(s.core.pc)
    ensures Orphans(Next(cfg, s, i).core.ops) <= InFlight(Next(cfg, s, i).core.pc)
  {
    if i.Advance? {
      if Creating(s.core.pc) {
        CreatingOrphans(cfg, s.core, s.now, i.a);
      } else {
        OtherStepsCreateNothing(cfg, s.core, s.now, i.a);
      }
    }
  }

  lemma {:induction false} CarefulRunsOrphanNothing(cfg: Config, s: JobState, inputs: seq<Input>)
    requires AllInv(cfg, s) && CarefulRun(cfg, s, inputs) && Orphans(s.core.ops) <= InFlight(s.core.pc)
    ensures var end := Run(cfg, s, inputs).core; Orphans(end.ops) <= InFlight(end.pc)
    decreases |inputs|
  {
    if inputs != [] {
      CarefulStep(cfg, s, inputs[0]);
      NextKeepsAll(cfg, s, inputs[0]);
      CarefulRunsOrphanNothing(cfg, Next(cfg, s, inputs[0]), inputs[1..]);
    }
  }

  /** Without such losses nothing leaks: a settled job has no platform job left alive. */
  lemma NothingLeaks(cfg: Config, jobId: string, rangeId: string, now: Time, inputs: seq<Input>)
    requires CarefulRun(cfg, Init(jobId, rangeId, now), inputs)
    ensures var end := Run(cfg, Init(jobId, rangeId, now), inputs).core;
            Settled(cfg, end.row) ==> Live(end.ops) == {}
  {
    var s := Init(jobId, rangeId, now);
    InitHoldsAll(cfg, jobId, rangeId, now);
    CarefulRunsOrphanNothing(cfg, s, inputs);
    RunKeepsAll(cfg, s, inputs);
    LeaksAreExactlyOrphans(cfg, jobId, rangeId, now, inputs);
    var end := Run(cfg, s, inputs);
    if Settled(cfg, end.core.row) {
      SettledFliesNothing(cfg, end.core, end.now);
    }
  }

  lemma SettledFliesNothing(cfg: Config, s: Core, now: Time)
    requires CoreInv(cfg, s, now) && Settled(cfg, s.row)
    ensures InFlight(s.pc) == {}
  {
  }

  // --- The close race --------------------------------------------------------------------------

  function CreatesIssued(t: Trace): nat {
    match t
    case Start => 0
    case Then(b, CreateIssued(_)) => CreatesIssued(b) + 1
    case Then(b, _) => CreatesIssued(b)
  }

  /** How many create calls the coroutine is committed to. */
  function Committed(pc: PC): nat {
    if After(pc).CreateGateway? || After(pc).CreateController? then 1 else 0
  }

  lemma CreatesAreCounted(cfg: Config, s: Core, now: Time, a: Answer)
    ensures var r := StepCore(cfg, s, now, a);
            CreatesIssued(r.ops) == CreatesIssued(s.ops) + (if s.pc.CreateGateway? || s.pc.CreateController? then 1 else 0)
  {
    var r := StepCore(cfg, s, now, a);
    if s.pc.CreateGateway? || s.pc.CreateController? {
      assert r.ops == Then(s.ops, r.ops.op) || r.ops == Then(Then(s.ops, r.ops.before.op), r.ops.op);
    } else if s.pc.StopController? || s.pc.StopGateway? {
      assert CreatesIssued(r.ops.before) == CreatesIssued(s.ops);
    } else {
      assert r.ops == s.ops || (r.ops == Then(s.ops, r.ops.op) && !r.ops.op.CreateIssued?);
    }
  }

  /** The control point behind at most one event append. */
  function Behind(pc: PC): PC {
    if pc.Log? then pc.next else pc
  }

  lemma HaltedBeforeController(cfg: Config, s: Core, now: Time, a: Answer)
    requires s.row.status == Closing && (BindingFiles(s.pc) || ProbingGateway(s.pc))
    ensures var pc := Behind(StepCore(cfg, s, now, a).pc); !pc.CreateGateway? && !pc.CreateController?
  {
  }

  lemma HaltedSupervision(cfg: Config, s: Core, now: Time, a: Answer)
    requires !BindingFiles(s.pc) && !ProbingGateway(s.pc) && !Dealing(s.pc) && !s.pc.Log?
    requires s.pc.CheckBeforeController? ==> s.row.status == Closing
    ensures var pc := Behind(StepCore(cfg, s, now, a).pc); !pc.CreateGateway? && !pc.CreateController?
  {
  }

  lemma HaltedDealings(cfg: Config, s: Core, now: Time, a: Answer)
    requires Dealing(s.pc)
    ensures var pc := Behind(StepCore(cfg, s, now, a).pc); !pc.CreateGateway? && !pc.CreateController?
  {
    if CreatingRJobs(s.pc) {
    } else if s.pc.CleanRead? {
    } else if s.pc.CleanSkip? {
    }
  }

  lemma HaltedJobsDoNotCommit(cfg: Config, s: Core, now: Time, a: Answer)
    requires CoreInv(cfg, s, now) && Halted(s.row) && !s.pc.Log?
    ensures Committed(StepCore(cfg, s, now, a).pc) == 0
  {
    var pc := StepCore(cfg, s, now, a).pc;
    if BindingFiles(s.pc) || ProbingGateway(s.pc) {
      if s.pc.AfterBindFailure? {
        assert pc == Idle;
      } else {
        HaltedBeforeController(cfg, s, now, a);
      }
    } else if Dealing(s.pc) {
      HaltedDealings(cfg, s, now, a);
    } else {
      HaltedSupervision(cfg, s, now, a);
    }
    if s.pc.CleanWrite? {
      assert pc.Log? && pc.next.Log? ==> After(pc) == pc.next.next;
    } else {
      OneEventAtATime(cfg, s, now, a);
    }
    assert !Behind(pc).Log? ==> After(pc) == Behind(pc);
  }

  lemma OneEventAtATime(cfg: Config, s: Core, now: Time, a: Answer)
    requires !s.pc.Log? && !s.pc.CleanWrite?
    ensures !Behind(StepCore(cfg, s, now, a).pc).Log?
  {
    if !s.pc.Succeed? && !s.pc.FailWrite? {
      OtherStepsAreQuiet(cfg, s, now, a);
    }
  }

  lemma HaltedStepCreatesNothingNew(cfg: Config, s: JobState, i: Input)
    requires AllInv(cfg, s) && Halted(s.core.row)
    ensures var r := Next(cfg, s, i).core;
            Halted(r.row)
            && CreatesIssued(r.ops) + Committed(r.pc) <= CreatesIssued(s.core.ops) + Committed(s.core.pc)
  {
    NextKeepsAll(cfg, s, i);
    if i.Advance? {
      CreatesAreCounted(cfg, s.core, s.now, i.a);
      if !s.core.pc.Log? {
        HaltedJobsDoNotCommit(cfg, s.core, s.now, i.a);
      }
    }
  }

  lemma {:induction false} HaltedRunCreatesNothingNew(cfg: Config, s: JobState, inputs: seq<Input>)
    requires AllInv(cfg, s) && Halted(s.core.row)
    ensures var end := Run(cfg, s, inputs).core;
            CreatesIssued(end.ops) + Committed(end.pc) <= CreatesIssued(s.core.ops) + Committed(s.core.pc)
    decreases |inputs|
  {
    if inputs != [] {
      NextKeepsAll(cfg, s, inputs[0]);
      HaltedStepCreatesNothingNew(cfg, s, inputs[0]);
      HaltedRunCreatesNothingNew(cfg, Next(cfg, s, inputs[0]), inputs[1..]);
    }
  }

  /** A cleanup that starts in a careful run finds every live id in the row. */
  lemma CleanupKnowsEveryId(cfg: Config, s: JobState)
    requires AllInv(cfg, s) && Orphans(s.core.ops) <= InFlight(s.core.pc) && s.core.pc.CleanRead?
    ensures Live(s.core.ops) <= Ids(s.core.row)
  {
  }

  /**
   After a close commits at most one more create is issued, by the turn already standing at a
   create call, and in a careful run its id is in the row before any cleanup starts.
   */
  lemma CloseRace(cfg: Config, jobId: string, rangeId: string, now: Time, before: seq<Input>, after: seq<Input>)
    ensures var open := Run(cfg, Init(jobId, rangeId, now), before);
            var closed := StepClose(open);
            var end := Run(cfg, closed, after);
            Active(open.core.row.status) ==>
              && CreatesIssued(end.core.ops) <= CreatesIssued(open.core.ops) + 1
              && (CreatesIssued(end.core.ops) > CreatesIssued(open.core.ops) ==>
                    After(open.core.pc).CreateGateway? || After(open.core.pc).CreateController?)
              && (CarefulRun(cfg, Init(jobId, rangeId, now), before) && CarefulRun(cfg, closed, after)
                  ==> end.core.pc.CleanRead? ==> Live(end.core.ops) <= Ids(end.core.row))
  {
    var s := Init(jobId, rangeId, now);
    var open := Run(cfg, s, before);
    InitHoldsAll(cfg, jobId, rangeId, now);
    RunKeepsAll(cfg, s, before);
    if Active(open.core.row.status) {
      var closed := StepClose(open);
      assert closed == Next(cfg, open, CloseRequest);
      NextKeepsAll(cfg, open, CloseRequest);
      HaltedRunCreatesNothingNew(cfg, closed, after);
      if CarefulRun(cfg, s, before) && CarefulRun(cfg, closed, after) {
        CarefulRunsOrphanNothing(cfg, s, before);
        CarefulRunsOrphanNothing(cfg, closed, after);
        RunKeepsAll(cfg, closed, after);
        var end := Run(cfg, closed, after);
        if end.core.pc.CleanRead? {
          CleanupKnowsEveryId(cfg, end);
        }
      }
    }
  }
}
