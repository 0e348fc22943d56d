/**
 What passes achieve: no row that is overdue when a pass starts is still active when it ends, and no job
 outlives two passes after its deadlines.
 */
module PassTheorems {
  import opened Wrappers
  import opened ControlStore
  import opened Platform
  import opened JobMachine
  import opened JobInvariant
  import opened JobTraces
  import opened JobTheorems
  import opened JobCleanup
  import opened JobLifetime
  import opened World
  import opened Passes

  /** A pass: the turns, and the cleanups when all turns have returned. */
  datatype Pass = Pass(turns: Leg, sweeps: Option<Leg>, end: PassEnd)

  function BeforePass(p: Pass): map<string, JobState> {
    p.turns.before
  }

  function AfterPass(p: Pass): map<string, JobState> {
    if p.sweeps.Some? then p.sweeps.value.after else p.turns.after
  }

  ghost predicate AllVisited(leg: Leg) {
    |leg.visits| == |leg.rows|
  }

  /** What a leg was for one job: a stretch of its run, from before the leg over the listing to its end. */
  ghost predicate Stretch(cfg: Config, leg: Leg, j: string)
    requires j in leg.before
  {
    && Reachable(cfg, j, leg.before[j])
    && j in leg.table && Reaches(cfg, leg.before[j], leg.table[j]) && Reachable(cfg, j, leg.table[j])
    && j in leg.after && Reaches(cfg, leg.table[j], leg.after[j]) && Reachable(cfg, j, leg.after[j])
  }

  /** A visit: it began at the first await of the listed row and has returned, and nothing has interrupted it. */
  ghost predicate VisitRun(cfg: Config, leg: Leg, turns: bool, k: nat)
    requires k < |leg.visits| <= |leg.rows|
  {
    var v := leg.visits[k];
    && v.id == leg.rows[k].jobId && v.id in leg.table && v.id in leg.after
    && Reachable(cfg, v.id, leg.table[v.id]) && Reaches(cfg, leg.table[v.id], v.begin)
    && v.begin.core.pc == FirstAwait(turns, leg.rows[k])
    && Reachable(cfg, v.id, v.begin) && Went(cfg, v.begin, v.end) && Reachable(cfg, v.id, v.end)
    && v.end.core.pc.Idle?
    && Reaches(cfg, v.end, leg.after[v.id])
  }

  /**
   One half of a pass, as runs of the jobs: the rows are those selected, and the first of them are visited in
   order.
   */
  ghost predicate LegRun(cfg: Config, leg: Leg, turns: bool) {
    && Listing(leg.table, leg.rows, turns)
    && (forall j :: j in leg.before ==> Stretch(cfg, leg, j))
    && |leg.visits| <= |leg.rows|
    && (forall k :: 0 <= k < |leg.visits| ==> VisitRun(cfg, leg, turns, k))
  }

  /** A pass: turns first, cleanups when all turns have returned; through when these have returned too. */
  ghost predicate PassRun(cfg: Config, p: Pass) {
    && LegRun(cfg, p.turns, true)
    && (p.sweeps.Some? ==> && AllVisited(p.turns)
                           && LegRun(cfg, p.sweeps.value, false) && p.sweeps.value.before == p.turns.after)
    && (p.end.Through? ==> p.sweeps.Some? && AllVisited(p.sweeps.value))
  }

  // --- Stretches of runs -------------------------------------------------------------------------

  lemma {:induction false} ReachesTransitive(cfg: Config, a: JobState, b: JobState, c: JobState)
    requires Reaches(cfg, a, b) && Reaches(cfg, b, c)
    ensures Reaches(cfg, a, c)
  {
    var inputs :| Run(cfg, b, inputs) == c;
    ReachesAlong(cfg, a, b, inputs);
  }

  lemma {:induction false} ReachesAlong(cfg: Config, a: JobState, b: JobState, inputs: seq<Input>)
    requires Reaches(cfg, a, b)
    ensures Reaches(cfg, a, Run(cfg, b, inputs))
    decreases |inputs|
  {
    if inputs != [] {
      var next := ReachesNext(cfg, a, b, inputs[0]);
      ReachesAlong(cfg, a, next, inputs[1..]);
    }
  }

  lemma {:induction false} ClockRuns(cfg: Config, s: JobState, inputs: seq<Input>)
    ensures s.now <= Run(cfg, s, inputs).now
    decreases |inputs|
  {
    if inputs != [] {
      ClockRuns(cfg, Next(cfg, s, inputs[0]), inputs[1..]);
    }
  }

  /** What may become of a row, and the clock, over a stretch of a run. */
  ghost predicate MovedFrom(s: JobState, t: JobState) {
    (WriteOnce(s.core.row, t.core.row) && Later(s.core.row.status, t.core.row.status) && s.now <= t.now) == true
  }

  lemma MovesOn(cfg: Config, id: string, s: JobState, t: JobState)
    requires Reachable(cfg, id, s) && Reaches(cfg, s, t)
    ensures MovedFrom(s, t) && AllInv(cfg, s) && AllInv(cfg, t)
  {
    var r, at :| Reaches(cfg, Init(id, r, at), s);
    var before :| Run(cfg, Init(id, r, at), before) == s;
    InitHoldsAll(cfg, id, r, at);
    RunKeepsAll(cfg, Init(id, r, at), before);
    var inputs :| Run(cfg, s, inputs) == t;
    RunKeepsAll(cfg, s, inputs);
    ClockRuns(cfg, s, inputs);
  }

  // --- One visit ---------------------------------------------------------------------------------

  /** The visited job is past a deadline when the visit begins: what a visit makes of that. */
  ghost predicate Served(cfg: Config, s: JobState, row: ControlJob) {
    (&& (TimedOut(cfg, s.core.row, s.now) ==> !Active(row.status) || row.controllerId.Some?)
     && (ControllerTimedOut(cfg, s.core.row, s.now) ==> !Active(row.status))) == true
  }

  lemma WholeTurnServes(cfg: Config, id: string, begin: JobState, end: JobState)
    requires Reachable(cfg, id, begin) && Went(cfg, begin, end) && begin.core.pc.BumpAttempt? && end.core.pc.Idle?
    ensures Served(cfg, begin, end.core.row)
  {
    var turn :| Run(cfg, begin, turn) == end && forall i :: i in turn ==> Uninterrupted(i);
    ReachesItself(cfg, begin);
    MovesOn(cfg, id, begin, begin);
    if TimedOut(cfg, begin.core.row, begin.now) {
      LateRun(cfg, begin, turn);
      assert MovedOn(end.core);
    }
    if ControllerTimedOut(cfg, begin.core.row, begin.now) {
      OverdueRun(cfg, begin, turn);
      assert Finished(end.core);
    }
  }

  /** Being past a deadline stays, and so does having been served. */
  lemma ServedAcross(cfg: Config, s: JobState, t: JobState, e: JobState, f: JobState)
    requires MovedFrom(s, t) && Served(cfg, t, e.core.row) && MovedFrom(e, f)
    ensures Served(cfg, s, f.core.row)
  {
    assert TimedOut(cfg, s.core.row, s.now) ==> TimedOut(cfg, t.core.row, t.now);
    assert ControllerTimedOut(cfg, s.core.row, s.now) ==> ControllerTimedOut(cfg, t.core.row, t.now);
  }

  lemma VisitServes(cfg: Config, leg: Leg, k: nat)
    requires k < |leg.visits| <= |leg.rows| && VisitRun(cfg, leg, true, k)
    ensures var id := leg.visits[k].id; Served(cfg, leg.table[id], leg.after[id].core.row)
  {
    var v := leg.visits[k];
    WholeTurnServes(cfg, v.id, v.begin, v.end);
    MovesOn(cfg, v.id, leg.table[v.id], v.begin);
    MovesOn(cfg, v.id, v.end, leg.after[v.id]);
    ServedAcross(cfg, leg.table[v.id], v.begin, v.end, leg.after[v.id]);
  }

  lemma ListedAt(leg: Leg, turns: bool, j: string) returns (k: nat)
    requires Listing(leg.table, leg.rows, turns) && j in leg.table && Selected(turns, leg.table[j].core.row)
    ensures k < |leg.rows| && leg.rows[k] == leg.table[j].core.row && leg.rows[k].jobId == j
  {
    assert leg.table[j].core.row in leg.rows;
    k :| 0 <= k < |leg.rows| && leg.rows[k] == leg.table[j].core.row;
  }

  lemma ListedRowsAreServed(cfg: Config, leg: Leg, j: string)
    requires LegRun(cfg, leg, true) && AllVisited(leg) && j in leg.before
    ensures Stretch(cfg, leg, j) && Served(cfg, leg.table[j], leg.after[j].core.row)
  {
    assert Stretch(cfg, leg, j);
    if Active(leg.table[j].core.row.status) {
      var k := ListedAt(leg, true, j);
      assert VisitRun(cfg, leg, true, k);
      VisitServes(cfg, leg, k);
    } else {
      MovesOn(cfg, j, leg.table[j], leg.after[j]);
    }
  }

  /** A leg of turns that were all taken has served every overdue row. */
  lemma TurnsServe(cfg: Config, leg: Leg, j: string)
    requires LegRun(cfg, leg, true) && AllVisited(leg) && j in leg.before
    ensures j in leg.after && Served(cfg, leg.before[j], leg.after[j].core.row)
  {
    ListedRowsAreServed(cfg, leg, j);
    MovesOn(cfg, j, leg.before[j], leg.table[j]);
    ReachesItself(cfg, leg.after[j]);
    MovesOn(cfg, j, leg.after[j], leg.after[j]);
    ServedAcross(cfg, leg.before[j], leg.table[j], leg.after[j], leg.after[j]);
  }

  lemma LegReaches(cfg: Config, leg: Leg, turns: bool, j: string)
    requires LegRun(cfg, leg, turns) && j in leg.before
    ensures j in leg.after && Reaches(cfg, leg.before[j], leg.after[j]) && Reachable(cfg, j, leg.after[j])
  {
    assert Stretch(cfg, leg, j);
    ReachesTransitive(cfg, leg.before[j], leg.table[j], leg.after[j]);
  }

  // --- Whole passes ------------------------------------------------------------------------------

  lemma PassReaches(cfg: Config, p: Pass, j: string)
    requires PassRun(cfg, p) && j in BeforePass(p)
    ensures j in AfterPass(p) && Reaches(cfg, BeforePass(p)[j], AfterPass(p)[j]) && Reachable(cfg, j, AfterPass(p)[j])
  {
    LegReaches(cfg, p.turns, true, j);
    if p.sweeps.Some? {
      LegReaches(cfg, p.sweeps.value, false, j);
      ReachesTransitive(cfg, BeforePass(p)[j], p.turns.after[j], AfterPass(p)[j]);
    }
  }

  /**
   A pass that runs through has given every row listed as active a whole turn; so a row that was past its
   gateway deadline when the pass started is inactive or has a controller when it ends, and one past its
   controller deadline is inactive.
   */
  lemma PassesServe(cfg: Config, p: Pass, j: string)
    requires PassRun(cfg, p) && p.end.Through? && j in BeforePass(p)
    ensures j in AfterPass(p) && Served(cfg, BeforePass(p)[j], AfterPass(p)[j].core.row)
  {
    assert Stretch(cfg, p.turns, j);
    TurnsServe(cfg, p.turns, j);
    LegReaches(cfg, p.turns, true, j);
    LegReaches(cfg, p.sweeps.value, false, j);
    var s, e := BeforePass(p)[j], p.turns.after[j];
    MovesOn(cfg, j, e, AfterPass(p)[j]);
    ReachesItself(cfg, s);
    MovesOn(cfg, j, s, s);
    ServedAcross(cfg, s, s, e, AfterPass(p)[j]);
  }

  /** A cleanup visit of a closing job closes it iff none of its stops raised. */
  lemma SweepsClose(cfg: Config, p: Pass, k: nat)
    requires PassRun(cfg, p) && p.sweeps.Some? && k < |p.sweeps.value.visits|
    ensures var v := p.sweeps.value.visits[k];
            v.begin.core.row.status == Closing ==> (v.end.core.row.status == Closed <==> CleanSoFar(v.end.core.ops))
  {
    var leg := p.sweeps.value;
    var v := leg.visits[k];
    assert VisitRun(cfg, leg, false, k);
    if v.begin.core.row.status == Closing {
      SweepCloses(cfg, v.id, v.begin, v.end);
    }
  }

  lemma SweepCloses(cfg: Config, id: string, begin: JobState, end: JobState)
    requires Reachable(cfg, id, begin) && Went(cfg, begin, end) && begin.core.pc == CleanRead(InSweep) && end.core.pc.Idle?
    requires begin.core.row.status == Closing
    ensures end.core.row.status == Closed <==> CleanSoFar(end.core.ops)
  {
    var attempt :| Run(cfg, begin, attempt) == end && forall i :: i in attempt ==> Uninterrupted(i);
    ReachesItself(cfg, begin);
    MovesOn(cfg, id, begin, begin);
    AttemptRuns(cfg, begin, attempt);
    assert ClosingAttempt(end.core) && After(end.core.pc) == Idle;
  }

  // --- The table ---------------------------------------------------------------------------------

  /** The same, read off the table and the clock. */
  ghost predicate RowsServed(cfg: Config, before: map<string, ControlJob>, start: Time,
                             after: map<string, ControlJob>) {
    forall id :: id in before ==>
      && id in after
      && (TimedOut(cfg, before[id], start) ==> !Active(after[id].status) || after[id].controllerId.Some?)
      && (ControllerTimedOut(cfg, before[id], start) ==> !Active(after[id].status))
  }

  lemma TablesAreServed(cfg: Config, w: World, v: World, p: Pass)
    requires Agree(cfg, TheMachine(cfg), w) && Agree(cfg, TheMachine(cfg), v)
    requires PassRun(cfg, p) && p.end.Through? && BeforePass(p) == w.m && AfterPass(p) == v.m
    ensures RowsServed(cfg, w.jobs, w.now, v.jobs)
  {
    RowsAreMachines(cfg, w);
    RowsAreMachines(cfg, v);
    forall id | id in w.m ensures id in v.m && Served(cfg, w.m[id], v.m[id].core.row) {
      PassesServe(cfg, p, id);
    }
    MachinesServed(cfg, w, v);
  }

  /** The rows of the table and the clock are those of the machines. */
  ghost predicate RowsMatch(w: World) {
    w.m.Keys == w.jobs.Keys && forall id :: id in w.m ==> w.m[id].core.row == w.jobs[id] && w.m[id].now == w.now
  }

  lemma RowsAreMachines(cfg: Config, w: World)
    requires Agree(cfg, TheMachine(cfg), w)
    ensures RowsMatch(w)
  {
    forall id | id in w.m ensures w.m[id].core.row == w.jobs[id] && w.m[id].now == w.now {
      assert Tracks(TheMachine(cfg), w, id);
    }
  }

  lemma MachinesServed(cfg: Config, w: World, v: World)
    requires RowsMatch(w) && RowsMatch(v)
    requires forall id :: id in w.m ==> id in v.m && Served(cfg, w.m[id], v.m[id].core.row)
    ensures RowsServed(cfg, w.jobs, w.now, v.jobs)
  {
    forall id | id in w.jobs
      ensures id in v.jobs
      ensures TimedOut(cfg, w.jobs[id], w.now) ==> !Active(v.jobs[id].status) || v.jobs[id].controllerId.Some?
      ensures ControllerTimedOut(cfg, w.jobs[id], w.now) ==> !Active(v.jobs[id].status) {
      assert id in w.m && Served(cfg, w.m[id], v.m[id].core.row);
    }
  }

  // --- From the machine carried by the loop ---------------------------------------------------------

  lemma OnwardMeans(cfg: Config, a: map<string, JobState>, b: map<string, JobState>, j: string)
    requires Onward(TheMachine(cfg), a, b) && j in a
    ensures j in b && Reachable(cfg, j, b[j]) && Reaches(cfg, a[j], b[j])
  {
    assert TheMachine(cfg).lived(j, Some(a[j]), None, b[j]);
  }

  lemma WholeMeans(cfg: Config, table: map<string, JobState>, row: ControlJob, v: Visit, turns: bool)
    requires Whole(TheMachine(cfg), table, row, v, turns)
    ensures v.id == row.jobId && v.id in table && v.begin.core.pc == FirstAwait(turns, row) && v.end.core.pc.Idle?
    ensures Reaches(cfg, table[v.id], v.begin) && Reachable(cfg, v.id, v.begin)
    ensures Went(cfg, v.begin, v.end) && Reachable(cfg, v.id, v.end) && Reaches(cfg, table[v.id], v.end)
  {
  }

  lemma TableIsReachable(cfg: Config, leg: Leg, turns: bool)
    requires LegOf(TheMachine(cfg), leg, turns)
    ensures forall j :: j in leg.table ==> Reachable(cfg, j, leg.table[j])
  {
    forall j | j in leg.table ensures Reachable(cfg, j, leg.table[j]) {
      OnwardMeans(cfg, leg.table, leg.table, j);
    }
  }

  /** The states the loop has noted tell the visits as runs. */
  lemma LegsAreRuns(cfg: Config, leg: Leg, turns: bool)
    requires LegOf(TheMachine(cfg), leg, turns)
    ensures LegRun(cfg, leg, turns)
  {
    TableIsReachable(cfg, leg, turns);
    forall k | 0 <= k < |leg.visits| ensures VisitRun(cfg, leg, turns, k) {
      VisitIsRun(cfg, leg, turns, k);
    }
    forall j | j in leg.before ensures Stretch(cfg, leg, j) {
      OnwardMeans(cfg, leg.before, leg.before, j);
      OnwardMeans(cfg, leg.before, leg.table, j);
      LegIsStretch(cfg, leg, turns, j);
    }
  }

  lemma VisitIsRun(cfg: Config, leg: Leg, turns: bool, k: nat)
    requires LegOf(TheMachine(cfg), leg, turns) && (forall j :: j in leg.table ==> Reachable(cfg, j, leg.table[j]))
    requires k < |leg.visits|
    ensures VisitRun(cfg, leg, turns, k)
  {
    var v := leg.visits[k];
    WholeMeans(cfg, leg.table, leg.rows[k], v, turns);
    assert leg.noted[v.id] == v.end;
    OnwardMeans(cfg, leg.noted, leg.after, v.id);
  }

  lemma LegIsStretch(cfg: Config, leg: Leg, turns: bool, j: string)
    requires LegOf(TheMachine(cfg), leg, turns) && j in leg.table
    ensures j in leg.after && Reaches(cfg, leg.table[j], leg.after[j]) && Reachable(cfg, j, leg.after[j])
  {
    OnwardMeans(cfg, leg.noted, leg.after, j);
    if k :| 0 <= k < |leg.visits| && leg.visits[k].id == j {
      WholeMeans(cfg, leg.table, leg.rows[k], leg.visits[k], turns);
      ReachesTransitive(cfg, leg.table[j], leg.visits[k].end, leg.after[j]);
    } else {
      assert leg.noted[j] == leg.table[j];
    }
  }

  // --- Many passes -------------------------------------------------------------------------------

  /** Every job has gone on by a stretch of its run. */
  ghost predicate RunOn(cfg: Config, a: map<string, JobState>, b: map<string, JobState>) {
    forall j :: j in a ==> j in b && Reaches(cfg, a[j], b[j]) && Reachable(cfg, j, b[j])
  }

  lemma OnwardRuns(cfg: Config, a: map<string, JobState>, b: map<string, JobState>)
    requires Onward(TheMachine(cfg), a, b)
    ensures RunOn(cfg, a, b)
  {
    forall j | j in a ensures j in b && Reaches(cfg, a[j], b[j]) && Reachable(cfg, j, b[j]) {
      OnwardMeans(cfg, a, b, j);
    }
  }

  /** All machines when pass j starts, or at the end of the history. */
  function PassStart(ps: seq<Pass>, to: map<string, JobState>, j: nat): map<string, JobState>
    requires j <= |ps|
  {
    if j < |ps| then BeforePass(ps[j]) else to
  }

  /** Pass i, and whatever restarts there were until the next one. */
  ghost predicate PassAt(cfg: Config, ps: seq<Pass>, to: map<string, JobState>, i: nat)
    requires i < |ps|
  {
    (PassRun(cfg, ps[i]) && RunOn(cfg, AfterPass(ps[i]), PassStart(ps, to, i + 1))) == true
  }

  /** Consecutive passes, with whatever restarts between them. */
  ghost predicate PassesRun(cfg: Config, ps: seq<Pass>, to: map<string, JobState>) {
    forall i :: 0 <= i < |ps| ==> PassAt(cfg, ps, to, i)
  }

  lemma OnePassMore(cfg: Config, ps: seq<Pass>, to: map<string, JobState>, p: Pass, later: map<string, JobState>)
    requires PassesRun(cfg, ps, to) && PassRun(cfg, p) && BeforePass(p) == to && RunOn(cfg, AfterPass(p), later)
    ensures PassesRun(cfg, ps + [p], later)
  {
    var next := ps + [p];
    forall i | 0 <= i < |next| ensures PassAt(cfg, next, later, i) {
      if i < |ps| {
        assert PassAt(cfg, ps, to, i) && next[i] == ps[i];
        assert PassStart(next, later, i + 1) == PassStart(ps, to, i + 1);
      }
    }
  }

  lemma BetweenPasses(cfg: Config, ps: seq<Pass>, to: map<string, JobState>, j: nat, id: string)
    requires PassesRun(cfg, ps, to) && 0 < j <= |ps| && id in AfterPass(ps[j - 1])
    ensures var at := PassStart(ps, to, j);
            id in at && Reaches(cfg, AfterPass(ps[j - 1])[id], at[id]) && Reachable(cfg, id, at[id])
  {
    assert PassAt(cfg, ps, to, j - 1);
  }

  /** From the end of one pass to the start of a later one. */
  lemma {:induction false} PassesReach(cfg: Config, ps: seq<Pass>, to: map<string, JobState>, i: nat, j: nat,
                                       id: string)
    requires PassesRun(cfg, ps, to) && i < j <= |ps| && id in AfterPass(ps[i])
    ensures var at := PassStart(ps, to, j);
            id in at && Reaches(cfg, AfterPass(ps[i])[id], at[id]) && Reachable(cfg, id, at[id])
    decreases j
  {
    if i + 1 == j {
      BetweenPasses(cfg, ps, to, j, id);
    } else {
      PassesReach(cfg, ps, to, i, j - 1, id);
      OverOnePass(cfg, ps, to, j, id);
      var mid := PassStart(ps, to, j - 1)[id];
      ReachesTransitive(cfg, AfterPass(ps[i])[id], mid, PassStart(ps, to, j)[id]);
    }
  }

  lemma OverOnePass(cfg: Config, ps: seq<Pass>, to: map<string, JobState>, j: nat, id: string)
    requires PassesRun(cfg, ps, to) && 0 < j <= |ps| && id in PassStart(ps, to, j - 1)
    ensures var from, at := PassStart(ps, to, j - 1), PassStart(ps, to, j);
            id in at && Reaches(cfg, from[id], at[id]) && Reachable(cfg, id, at[id])
  {
    assert PassStart(ps, to, j - 1) == BeforePass(ps[j - 1]);
    assert PassAt(cfg, ps, to, j - 1);
    PassReaches(cfg, ps[j - 1], id);
    BetweenPasses(cfg, ps, to, j, id);
    ReachesTransitive(cfg, BeforePass(ps[j - 1])[id], AfterPass(ps[j - 1])[id], PassStart(ps, to, j)[id]);
  }

  /** A row at the end of a pass, and at the start of a later one or at the end of the history. */
  lemma LaterRows(cfg: Config, ps: seq<Pass>, to: map<string, JobState>, i: nat, j: nat, id: string)
    requires PassesRun(cfg, ps, to) && i < j <= |ps| && id in BeforePass(ps[i])
    ensures id in AfterPass(ps[i]) && id in PassStart(ps, to, j)
    ensures MovedFrom(AfterPass(ps[i])[id], PassStart(ps, to, j)[id])
    ensures Reachable(cfg, id, PassStart(ps, to, j)[id]) && AllInv(cfg, PassStart(ps, to, j)[id])
  {
    assert PassAt(cfg, ps, to, i);
    PassReaches(cfg, ps[i], id);
    PassesReach(cfg, ps, to, i, j, id);
    MovesOn(cfg, id, AfterPass(ps[i])[id], PassStart(ps, to, j)[id]);
  }

  /**
   No job outlives two passes: one that runs through after its gateway deadline, and a later one that runs
   through after its controller deadline, if it has a controller by then.  Passes and restarts before,
   between and after them do not matter, nor what the platform answers or raises.
   */
  lemma NoJobOutlivesTwoPasses(cfg: Config, ps: seq<Pass>, to: map<string, JobState>, i: nat, j: nat, id: string)
    requires PassesRun(cfg, ps, to) && i < j < |ps| && ps[i].end.Through? && ps[j].end.Through?
    requires id in BeforePass(ps[i])
    requires TimedOut(cfg, BeforePass(ps[i])[id].core.row, BeforePass(ps[i])[id].now)
    ensures id in BeforePass(ps[j]) && id in to
    ensures var s := BeforePass(ps[j])[id];
            (s.core.row.startedAt.Some? ==> ControllerTimedOut(cfg, s.core.row, s.now)) ==> !Active(to[id].core.row.status)
  {
    assert PassAt(cfg, ps, to, i) && PassAt(cfg, ps, to, j);
    PassesServe(cfg, ps[i], id);
    LaterRows(cfg, ps, to, i, j, id);
    var s := BeforePass(ps[j])[id];
    PassesServe(cfg, ps[j], id);
    LaterRows(cfg, ps, to, j, |ps|, id);
    PassReaches(cfg, ps[j], id);
    MovesOn(cfg, id, s, AfterPass(ps[j])[id]);
    ServedTwice(cfg, BeforePass(ps[i])[id], AfterPass(ps[i])[id], s, AfterPass(ps[j])[id], to[id]);
  }

  lemma ServedTwice(cfg: Config, first: JobState, e: JobState, s: JobState, f: JobState, last: JobState)
    requires TimedOut(cfg, first.core.row, first.now) && Served(cfg, first, e.core.row)
    requires MovedFrom(e, s) && AllInv(cfg, s) && Served(cfg, s, f.core.row) && MovedFrom(s, f) && MovedFrom(f, last)
    ensures (s.core.row.startedAt.Some? ==> ControllerTimedOut(cfg, s.core.row, s.now)) ==> !Active(last.core.row.status)
  {
    assert CoreInv(cfg, s.core, s.now);
  }
}
