/**
 What a pass of the loop does for the jobs it lists: every one of them gets a whole turn, or a whole
 cleanup, unless the process dies or an exception ends the loop.
 */
module Passes {
  import opened Wrappers
  import opened ControlStore
  import opened Platform
  import opened JobMachine
  import opened World
  import opened OwnMoves

  /** How a pass ends: for good, by an exception in the visit of this job, or by the death of the process. */
  datatype PassEnd = Through | LoopEnded(id: string) | Died

  /** One visited job: its machine when the visit began and when it had returned. */
  datatype Visit = Visit(id: string, begin: JobState, end: JobState)

  /**
   One half of a pass: all machines before it, when the table was listed, and after it; the listed
   rows, the visits made, and the states noted on the way.
   */
  datatype Leg = Leg(
    before: map<string, JobState>,
    table: map<string, JobState>,
    rows: seq<ControlJob>,
    visits: seq<Visit>,
    noted: map<string, JobState>,
    after: map<string, JobState>)

  /** Turns for the active rows, then cleanups for the flagged ones. */
  predicate Selected(turns: bool, row: ControlJob) {
    if turns then Active(row.status) else row.cleanup
  }

  function FirstAwait(turns: bool, row: ControlJob): PC {
    if turns then BumpAttempt(row.attempt) else CleanRead(InSweep)
  }

  /** Every machine has gone on from where it was. */
  ghost predicate Onward(mc: Machine, a: map<string, JobState>, b: map<string, JobState>) {
    forall j :: j in a ==> j in b && mc.lived(j, Some(a[j]), None, b[j])
  }

  /** The rows are the selected rows of the table, each once. */
  ghost predicate Listing(table: map<string, JobState>, rows: seq<ControlJob>, turns: bool) {
    && Apiece(rows)
    && (forall r :: r in rows ==> r.jobId in table && table[r.jobId].core.row == r && Selected(turns, r))
    && (forall j :: j in table && Selected(turns, table[j].core.row) ==>
          table[j].core.row.jobId == j && table[j].core.row in rows)
  }

  /** The visit began at the first await, with the job as it was listed or later, and has returned uninterrupted. */
  ghost predicate Whole(mc: Machine, table: map<string, JobState>, row: ControlJob, v: Visit, turns: bool) {
    && v.id == row.jobId && v.id in table
    && mc.lived(v.id, Some(table[v.id]), None, v.begin) && v.begin.core.pc == FirstAwait(turns, row)
    && mc.lived(v.id, Some(table[v.id]), Some(v.begin), v.end) && v.end.core.pc.Idle?
  }

  /** Noted is, for each visited job, how its visit ended, and for the others how they were listed. */
  ghost predicate Noted(table: map<string, JobState>, visits: seq<Visit>, noted: map<string, JobState>) {
    && noted.Keys == table.Keys
    && (forall k :: 0 <= k < |visits| ==> visits[k].id in noted && noted[visits[k].id] == visits[k].end)
    && (forall j :: j in table && (forall k :: 0 <= k < |visits| ==> visits[k].id != j) ==> noted[j] == table[j])
  }

  /** The first rows of the list have been visited, in order. */
  ghost predicate Visits(mc: Machine, table: map<string, JobState>, rows: seq<ControlJob>, visits: seq<Visit>,
                         turns: bool) {
    |visits| <= |rows| && forall k :: 0 <= k < |visits| ==> Whole(mc, table, rows[k], visits[k], turns)
  }

  /** The rows were listed, the first of them have been visited, and all that has been noted. */
  ghost predicate Progress(mc: Machine, table: map<string, JobState>, rows: seq<ControlJob>, visits: seq<Visit>,
                           noted: map<string, JobState>, turns: bool) {
    (Listing(table, rows, turns) && Visits(mc, table, rows, visits, turns) && Noted(table, visits, noted)) == true
  }

  ghost predicate LegOf(mc: Machine, leg: Leg, turns: bool) {
    && Onward(mc, leg.before, leg.before) && Onward(mc, leg.before, leg.table) && Onward(mc, leg.table, leg.table)
    && Progress(mc, leg.table, leg.rows, leg.visits, leg.noted, turns)
    && Onward(mc, leg.noted, leg.after)
  }

  lemma NothingVisited(mc: Machine, table: map<string, JobState>, rows: seq<ControlJob>, turns: bool)
    requires Listing(table, rows, turns)
    ensures Progress(mc, table, rows, [], table, turns)
  {
  }

  lemma OneMoreVisit(mc: Machine, table: map<string, JobState>, rows: seq<ControlJob>, visits: seq<Visit>,
                     noted: map<string, JobState>, v: Visit, turns: bool)
    requires Progress(mc, table, rows, visits, noted, turns)
    requires |visits| < |rows| && Whole(mc, table, rows[|visits|], v, turns)
    ensures Progress(mc, table, rows, visits + [v], noted[v.id := v.end], turns)
  {
    assert Visits(mc, table, rows, visits + [v], turns);
    forall k | 0 <= k < |visits| ensures visits[k].id != v.id {
      assert Whole(mc, table, rows[k], visits[k], turns);
    }
    NotedGrows(table, visits, noted, v);
  }

  lemma NotedGrows(table: map<string, JobState>, visits: seq<Visit>, noted: map<string, JobState>, v: Visit)
    requires Noted(table, visits, noted) && v.id in table && forall k :: 0 <= k < |visits| ==> visits[k].id != v.id
    ensures Noted(table, visits + [v], noted[v.id := v.end])
  {
    var next := visits + [v];
    forall j | j in table && (forall k :: 0 <= k < |next| ==> next[k].id != j) ensures noted[v.id := v.end][j] == table[j] {
      assert next[|visits|].id != j;
      assert forall k :: 0 <= k < |visits| ==> next[k] == visits[k];
    }
  }

  /** The visits made are not those of the next row. */
  lemma NotYetVisited(mc: Machine, table: map<string, JobState>, rows: seq<ControlJob>, visits: seq<Visit>,
                      noted: map<string, JobState>, turns: bool)
    requires Progress(mc, table, rows, visits, noted, turns)
    requires |visits| < |rows|
    ensures var id := rows[|visits|].jobId; id in noted && id in table && noted[id] == table[id]
  {
    var id := rows[|visits|].jobId;
    assert rows[|visits|] in rows;
    forall k | 0 <= k < |visits| ensures visits[k].id != id {
      assert Whole(mc, table, rows[k], visits[k], turns);
    }
  }

  /** What has been noted stays behind. */
  lemma NotedIsBehind(cfg: Config, mc: Machine, w: World)
    requires Agree(cfg, mc, w)
    ensures Onward(mc, w.past, w.m)
  {
    forall j | j in w.past ensures j in w.m && mc.lived(j, Some(w.past[j]), None, w.m[j]) {
      assert Tracks(mc, w, j);
    }
  }

  lemma AllAreNoted(cfg: Config, mc: Machine, w: World)
    requires Agree(cfg, mc, w)
    ensures Agree(cfg, mc, w.(past := w.m))
  {
    var v := w.(past := w.m);
    forall j | j in v.m ensures Tracks(mc, v, j) {
      assert Tracks(mc, w, j);
    }
  }

  lemma AllGoOn(cfg: Config, mc: Machine, w: World)
    requires Agree(cfg, mc, w)
    ensures Onward(mc, w.m, w.m)
  {
    AllAreNoted(cfg, mc, w);
    NotedIsBehind(cfg, mc, w.(past := w.m));
  }

  /** All machines are noted as they are. */
  lemma NotingHere(cfg: Config, mc: Machine, here: Spot -> bool, x: Spot)
    requires x.Quiet? && Means(cfg, mc, here) && here(x)
    ensures here(Quiet(x.w.(past := x.w.m), x.listed, x.sweeping))
    ensures Onward(mc, x.w.past, x.w.m) && Onward(mc, x.w.m, x.w.m)
  {
    assert Here(cfg, mc, x);
    AllGoOn(cfg, mc, x.w);
    NotedIsBehind(cfg, mc, x.w);
    AllAreNoted(cfg, mc, x.w);
    assert Here(cfg, mc, Quiet(x.w.(past := x.w.m), x.listed, x.sweeping));
  }

  /** A listing marks the selected jobs, which wait from then on. */
  lemma ListingHere(cfg: Config, mc: Machine, here: Spot -> bool, w: World, turns: bool)
    requires Means(cfg, mc, here) && here(Quiet(w, map[], {}))
    ensures var v := WithAll(mc, w, if turns then ListActive else ListCleanup);
            here(Quiet(v, if turns then ListedIn(v.m) else map[], if turns then {} else SweptIn(v.m)))
  {
    assert Here(cfg, mc, Quiet(w, map[], {}));
    var i := if turns then ListActive else ListCleanup;
    var v := WithAll(mc, w, i);
    ListingAgrees(cfg, mc, w, i);
    ListingWaits(v.m);
    assert Here(cfg, mc, Quiet(v, if turns then ListedIn(v.m) else map[], if turns then {} else SweptIn(v.m)));
  }

  lemma ListedRowsWait(cfg: Config, mc: Machine, here: Spot -> bool, w: World, turns: bool, rows: seq<ControlJob>)
    requires Means(cfg, mc, here) && here(Quiet(w, map[], {})) && Apiece(rows)
    requires forall j :: j in w.jobs ==> w.jobs[j].jobId == j
    requires forall r :: r in rows <==> r.jobId in w.jobs && w.jobs[r.jobId] == r && Selected(turns, r)
    ensures var v := WithAll(mc, w, if turns then ListActive else ListCleanup);
            && Listing(v.m, rows, turns)
            && (if turns then QueuedTurns(ListedIn(v.m), rows, 0) else QueuedSweeps(SweptIn(v.m), rows, 0))
  {
    assert Here(cfg, mc, Quiet(w, map[], {}));
    var i := if turns then ListActive else ListCleanup;
    ListingQueues(cfg, mc, w, i, rows);
    RowsAreListed(cfg, mc, WithAll(mc, w, i), rows, turns);
  }

  /** A visit is over: its end is noted. */
  lemma EndIsNoted(cfg: Config, mc: Machine, w: World, id: string)
    requires Agree(cfg, mc, w) && id in w.m
    ensures Agree(cfg, mc, w.(past := w.past[id := w.m[id]], begun := map[]))
  {
    var v := w.(past := w.past[id := w.m[id]], begun := map[]);
    forall j | j in v.m ensures Tracks(mc, v, j) {
      EndTracks(cfg, mc, w, v, id, j);
    }
  }

  lemma EndTracks(cfg: Config, mc: Machine, w: World, v: World, id: string, j: string)
    requires Agree(cfg, mc, w) && id in w.m && j in w.m && v == w.(past := w.past[id := w.m[id]], begun := map[])
    ensures Tracks(mc, v, j)
  {
    assert Tracks(mc, w, j);
    assert mc.lived(j, Known(w.past, j), None, w.m[j]);
  }

  lemma EndHere(cfg: Config, mc: Machine, here: Spot -> bool, x: Spot)
    requires x.Spot? && Means(cfg, mc, here) && here(x) && x.pc == Idle
    ensures x.id in x.w.m
    ensures here(Quiet(x.w.(past := x.w.past[x.id := x.w.m[x.id]], begun := map[]), x.listed, x.sweeping))
  {
    assert Here(cfg, mc, x);
    TurnIsOver(x.w.m, x.id, x.listed, x.sweeping);
    EndIsNoted(cfg, mc, x.w, x.id);
    assert Here(cfg, mc, Quiet(x.w.(past := x.w.past[x.id := x.w.m[x.id]], begun := map[]), x.listed, x.sweeping));
  }

  /** What is known of the job in whose visit the coroutine stands. */
  lemma StandingHere(cfg: Config, mc: Machine, here: Spot -> bool, x: Spot)
    requires x.Spot? && Means(cfg, mc, here) && here(x)
    ensures Agree(cfg, mc, x.w) && Onward(mc, x.w.past, x.w.m) && Waiting(x.w.m, x.listed, x.sweeping)
    ensures x.id in x.w.m && x.w.m[x.id].core.pc == x.pc
    ensures mc.lived(x.id, Known(x.w.past, x.id), Known(x.w.begun, x.id), x.w.m[x.id])
  {
    assert Here(cfg, mc, x);
    assert Tracks(mc, x.w, x.id);
    NotedIsBehind(cfg, mc, x.w);
  }

  /** What the loop keeps aside: the queue, the states noted, and where the visit under way began. */
  datatype Notes = Notes(
    listed: map<string, ControlJob>,
    sweeping: set<string>,
    past: map<string, JobState>,
    begun: map<string, JobState>)

  /** The rows from here on wait for their visits. */
  ghost predicate RowsWait(notes: Notes, rows: seq<ControlJob>, n: nat, turns: bool) {
    if turns then QueuedTurns(notes.listed, rows, n) else QueuedSweeps(notes.sweeping, rows, n)
  }

  /** The first rows have been visited, and the others wait. */
  ghost predicate Ready(mc: Machine, notes: Notes, table: map<string, JobState>, rows: seq<ControlJob>,
                        visits: seq<Visit>, turns: bool) {
    (RowsWait(notes, rows, |visits|, turns) && Progress(mc, table, rows, visits, notes.past, turns)) == true
  }

  /** The visit of the next row is under way, which began in this state, and the rows behind it wait. */
  ghost predicate Underway(mc: Machine, notes: Notes, table: map<string, JobState>, rows: seq<ControlJob>,
                           visits: seq<Visit>, begin: JobState, turns: bool) {
    (&& |visits| < |rows| && RowsWait(notes, rows, |visits| + 1, turns)
     && Progress(mc, table, rows, visits, notes.past, turns)
     && Visiting(mc, notes.past, notes.begun, rows[|visits|], begin, table, turns)) == true
  }

  /** The visit of this row has begun in the state begin. */
  ghost predicate Visiting(mc: Machine, past: map<string, JobState>, begun: map<string, JobState>, row: ControlJob,
                           begin: JobState, table: map<string, JobState>, turns: bool) {
    var id := row.jobId;
    && begun == map[id := begin] && id in table && id in past && past[id] == table[id]
    && mc.lived(id, Some(table[id]), None, begin) && begin.core.pc == FirstAwait(turns, row)
  }

  /** The coroutine stands at the first await of the next row. */
  lemma VisitBegins(cfg: Config, mc: Machine, here: Spot -> bool, x: Spot, table: map<string, JobState>,
                    rows: seq<ControlJob>, visits: seq<Visit>, turns: bool)
    requires x.Spot? && Means(cfg, mc, here) && here(x)
    requires Progress(mc, table, rows, visits, x.w.past, turns) && |visits| < |rows| && x.id in x.w.m
    requires x.id == rows[|visits|].jobId && x.pc == FirstAwait(turns, rows[|visits|])
    requires x.w.begun == map[x.id := x.w.m[x.id]]
    ensures Visiting(mc, x.w.past, x.w.begun, rows[|visits|], x.w.m[x.id], table, turns)
  {
    NotYetVisited(mc, table, rows, visits, x.w.past, turns);
    StandingHere(cfg, mc, here, x);
  }

  /** The visit of the next row has returned, and its end is noted. */
  lemma VisitEnds(cfg: Config, mc: Machine, here: Spot -> bool, x: Spot, table: map<string, JobState>,
                  rows: seq<ControlJob>, visits: seq<Visit>, begin: JobState, turns: bool)
    requires x.Spot? && Means(cfg, mc, here) && here(x) && x.pc == Idle
    requires Progress(mc, table, rows, visits, x.w.past, turns) && |visits| < |rows| && x.id == rows[|visits|].jobId
    requires Visiting(mc, x.w.past, x.w.begun, rows[|visits|], begin, table, turns)
    ensures x.id in x.w.m
    ensures var past := x.w.past[x.id := x.w.m[x.id]];
            && here(Quiet(x.w.(past := past, begun := map[]), x.listed, x.sweeping))
            && Progress(mc, table, rows, visits + [Visit(x.id, begin, x.w.m[x.id])], past, turns)
  {
    StandingHere(cfg, mc, here, x);
    EndHere(cfg, mc, here, x);
    OneMoreVisit(mc, table, rows, visits, x.w.past, Visit(x.id, begin, x.w.m[x.id]), turns);
  }

  /** The rows of the table are the rows of the machines. */
  lemma RowsAreListed(cfg: Config, mc: Machine, w: World, rows: seq<ControlJob>, turns: bool)
    requires Agree(cfg, mc, w) && Apiece(rows) && (forall j :: j in w.jobs ==> w.jobs[j].jobId == j)
    requires forall r :: r in rows <==> r.jobId in w.jobs && w.jobs[r.jobId] == r && Selected(turns, r)
    ensures Listing(w.m, rows, turns)
  {
    forall j | j in w.m ensures w.m[j].core.row == w.jobs[j] {
      assert Tracks(mc, w, j);
    }
  }
}
