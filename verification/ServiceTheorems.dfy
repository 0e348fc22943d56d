/**
 What the theorems about runs say of the job table.  The orchestrator keeps Sim, whose world agrees
 with the machine; so whatever its code has done, and in whatever interleaving, these hold.
 */
module ServiceTheorems {
  import opened Wrappers
  import opened ControlStore
  import opened Platform
  import opened JobMachine
  import opened JobInvariant
  import opened JobTraces
  import opened JobTheorems
  import opened JobReasons
  import opened World

  lemma RowsAreTracked(cfg: Config, w: World, j: string)
    requires Agree(cfg, TheMachine(cfg), w) && j in w.jobs
    ensures j in w.m && w.m[j].core.row == w.jobs[j] && w.m[j].log == Kinds(w.events, j) && Reachable(cfg, j, w.m[j])
  {
    assert Tracks(TheMachine(cfg), w, j);
  }

  lemma ReachableByARun(cfg: Config, id: string, s: JobState) returns (rangeId: string, now: Time, inputs: seq<Input>)
    requires Reachable(cfg, id, s)
    ensures s == Run(cfg, Init(id, rangeId, now), inputs)
  {
    rangeId, now :| Reaches(cfg, Init(id, rangeId, now), s);
    inputs :| Run(cfg, Init(id, rangeId, now), inputs) == s;
  }

  /** Every job of an agreeing world has made a run of the machine. */
  lemma EveryJobIsARun(cfg: Config, w: World, j: string) returns (rangeId: string, now: Time, inputs: seq<Input>)
    ensures Agree(cfg, TheMachine(cfg), w) && j in w.jobs ==>
              && j in w.m && w.m[j] == Run(cfg, Init(j, rangeId, now), inputs)
              && w.m[j].core.row == w.jobs[j] && w.m[j].log == Kinds(w.events, j)
  {
    rangeId, now, inputs := "", 0, [];
    if Agree(cfg, TheMachine(cfg), w) && j in w.jobs {
      RowsAreTracked(cfg, w, j);
      rangeId, now, inputs := ReachableByARun(cfg, j, w.m[j]);
    }
  }

  /** Every row of the table is consistent. */
  lemma TableIsConsistent(cfg: Config, w: World, j: string)
    ensures Agree(cfg, TheMachine(cfg), w) && j in w.jobs ==> RowInv(w.jobs[j])
  {
    if Agree(cfg, TheMachine(cfg), w) && j in w.jobs {
      var rangeId, now, inputs := EveryJobIsARun(cfg, w, j);
      RowsAreConsistent(cfg, j, rangeId, now, inputs);
    }
  }

  /** The log announces at most one end, and the one the row has come to. */
  ghost predicate Tells(log: seq<EventKind>, row: ControlJob) {
    && (JobSucceeded in log ==> row.status == Succeeded)
    && (JobFailed in log ==> row.status == Failed)
    && (JobClosed in log ==> row.status == Closed)
    && (forall p, q :: 0 <= p < |log| && 0 <= q < |log| && Final(log[p]) && Final(log[q]) ==> p == q)
  }

  lemma LogTells(cfg: Config, jobId: string, rangeId: string, now: Time, inputs: seq<Input>)
    ensures var s := Run(cfg, Init(jobId, rangeId, now), inputs); Tells(s.log, s.core.row)
  {
    EventsAreAnnouncedOnce(cfg, jobId, rangeId, now, inputs);
  }

  /** The log announces the end of a job at most once, and truly. */
  lemma LogTellsTheTable(cfg: Config, w: World, j: string)
    ensures Agree(cfg, TheMachine(cfg), w) && j in w.jobs ==> Tells(Kinds(w.events, j), w.jobs[j])
  {
    if Agree(cfg, TheMachine(cfg), w) && j in w.jobs {
      var rangeId, now, inputs := EveryJobIsARun(cfg, w, j);
      LogTells(cfg, j, rangeId, now, inputs);
    }
  }

  /** The platform jobs a settled job has left alive are exactly those whose id never reached its row. */
  lemma TableLeaksOnlyOrphans(cfg: Config, w: World, j: string)
    ensures Agree(cfg, TheMachine(cfg), w) && j in w.jobs && Settled(cfg, w.jobs[j]) ==>
              j in w.m && Live(w.m[j].core.ops) == Orphans(w.m[j].core.ops)
  {
    if Agree(cfg, TheMachine(cfg), w) && j in w.jobs && Settled(cfg, w.jobs[j]) {
      var rangeId, now, inputs := EveryJobIsARun(cfg, w, j);
      LeaksAreExactlyOrphans(cfg, j, rangeId, now, inputs);
    }
  }

  /** The row names a reason its columns bear out. */
  ghost predicate FailedTruly(cfg: Config, row: ControlJob) {
    row.reason.Some? && row.completedAt.Some?
    && Grounds(cfg, row, row.completedAt.value + MICROS_PER_MILLI, row.reason.value)
  }

  lemma FailureIsTrue(cfg: Config, jobId: string, rangeId: string, now: Time, inputs: seq<Input>)
    ensures var row := Run(cfg, Init(jobId, rangeId, now), inputs).core.row; row.status == Failed ==> FailedTruly(cfg, row)
  {
    FailuresAreTrue(cfg, jobId, rangeId, now, inputs);
  }

  /** A failed row of the table names a reason its columns bear out. */
  lemma TableFailuresAreTrue(cfg: Config, w: World, j: string)
    ensures Agree(cfg, TheMachine(cfg), w) && j in w.jobs && w.jobs[j].status == Failed ==>
              FailedTruly(cfg, w.jobs[j])
  {
    if Agree(cfg, TheMachine(cfg), w) && j in w.jobs {
      var rangeId, now, inputs := EveryJobIsARun(cfg, w, j);
      FailureIsTrue(cfg, j, rangeId, now, inputs);
    }
  }
}
