/**
 All jobs at one moment: their machines, and the table, log, files and clock these must agree
 with.  The code of the orchestrator is proved against the moves described here; the machine is
 carried as a value, so that those proofs need not look inside it.
 */
module World {
  import opened Wrappers
  import opened ControlStore
  import opened Platform
  import opened JobMachine
  import opened BindHistory
  import FileManager

  /** The state is one the machine can reach for this job. */
  ghost predicate Reachable(cfg: Config, id: string, s: JobState) {
    exists r, t :: Reaches(cfg, Init(id, r, t), s)
  }

  /**
   What is known of the past of a job's state: it is reachable, it comes after an earlier state that
   was noted, and nothing has interrupted the turn that began in another.
   */
  ghost predicate Lived(cfg: Config, id: string, past: Option<JobState>, begun: Option<JobState>, s: JobState) {
    && Reachable(cfg, id, s)
    && (past.Some? ==> Reaches(cfg, past.value, s))
    && (begun.Some? ==> Went(cfg, begun.value, s))
  }

  /** The machine as a value: its step, and what is known of the past of a state. */
  datatype Machine = Machine(next: (JobState, Input) -> JobState,
                             lived: (string, Option<JobState>, Option<JobState>, JobState) -> bool)

  ghost predicate Genuine(cfg: Config, mc: Machine) {
    && (forall s, i {:trigger Next(cfg, s, i)} :: mc.next(s, i) == Next(cfg, s, i))
    && (forall id, p, b, s, i {:trigger mc.lived(id, p, b, s), Next(cfg, s, i)} ::
          mc.lived(id, p, b, s) && (b.None? || Uninterrupted(i)) ==> mc.lived(id, p, b, Next(cfg, s, i)))
    && (forall id, r, t {:trigger Init(id, r, t)} :: mc.lived(id, None, None, Init(id, r, t)))
    && (forall id, p, b, s {:trigger mc.lived(id, p, b, s)} :: mc.lived(id, p, b, s) ==>
          mc.lived(id, p, None, s) && mc.lived(id, Some(s), b, s) && mc.lived(id, p, Some(s), s))
  }

  /** The machine itself. */
  ghost function TheMachine(cfg: Config): (mc: Machine)
    ensures Genuine(cfg, mc)
    ensures forall id, p, b, s :: mc.lived(id, p, b, s) <==> Lived(cfg, id, p, b, s)
  {
    var mc := Machine((s, i) => Next(cfg, s, i), (id, p, b, s) => Lived(cfg, id, p, b, s));
    LivedAll(cfg);
    mc
  }

  lemma LivedNext(cfg: Config, id: string, p: Option<JobState>, b: Option<JobState>, s: JobState, i: Input)
    requires Lived(cfg, id, p, b, s) && (b.None? || Uninterrupted(i))
    ensures Lived(cfg, id, p, b, Next(cfg, s, i))
  {
    var r, t :| Reaches(cfg, Init(id, r, t), s);
    var next := ReachesNext(cfg, Init(id, r, t), s, i);
    if p.Some? {
      var later := ReachesNext(cfg, p.value, s, i);
    }
    if b.Some? {
      WentNext(cfg, b.value, s, i);
    }
  }

  lemma LivedAll(cfg: Config)
    ensures forall id, p, b, s, i {:trigger Lived(cfg, id, p, b, s), Next(cfg, s, i)} ::
              Lived(cfg, id, p, b, s) && (b.None? || Uninterrupted(i)) ==> Lived(cfg, id, p, b, Next(cfg, s, i))
    ensures forall id, r, t :: Lived(cfg, id, None, None, Init(id, r, t))
    ensures forall id, p, b, s :: Lived(cfg, id, p, b, s) ==>
              Lived(cfg, id, p, None, s) && Lived(cfg, id, Some(s), b, s) && Lived(cfg, id, p, Some(s), s)
  {
    forall id, p, b, s | Lived(cfg, id, p, b, s)
      ensures Lived(cfg, id, p, None, s) && Lived(cfg, id, Some(s), b, s) && Lived(cfg, id, p, Some(s), s) {
      ReachesItself(cfg, s);
      WentNowhere(cfg, s);
    }
    forall id, p, b, s, i | Lived(cfg, id, p, b, s) && (b.None? || Uninterrupted(i))
      ensures Lived(cfg, id, p, b, Next(cfg, s, i)) {
      LivedNext(cfg, id, p, b, s, i);
    }
    forall id, r, t ensures Lived(cfg, id, None, None, Init(id, r, t)) {
      ReachesItself(cfg, Init(id, r, t));
    }
  }

  /** The announced events of one job. */
  function Kinds(events: seq<Event>, id: string): seq<EventKind> {
    if events == [] then []
    else
      var e := events[|events| - 1];
      var front := Kinds(events[..|events| - 1], id);
      if e.jobId == id && e.kind != JobCreated then front + [e.kind] else front
  }

  lemma KindsAppend(events: seq<Event>, e: Event, id: string)
    ensures Kinds(events + [e], id) ==
            Kinds(events, id) + (if e.jobId == id && e.kind != JobCreated then [e.kind] else [])
  {
    assert (events + [e])[..|events|] == events;
  }

  lemma OthersKindsStay(events: seq<Event>, e: Event)
    ensures forall j :: (j != e.jobId || e.kind == JobCreated) ==> Kinds(events + [e], j) == Kinds(events, j)
    ensures e.kind != JobCreated ==> Kinds(events + [e], e.jobId) == Kinds(events, e.jobId) + [e.kind]
  {
    forall j ensures (j != e.jobId || e.kind == JobCreated) ==> Kinds(events + [e], j) == Kinds(events, j) {
      KindsAppend(events, e, j);
    }
    KindsAppend(events, e, e.jobId);
  }

  datatype World = World(
    m: map<string, JobState>,
    jobs: map<string, ControlJob>,
    events: seq<Event>,
    files: map<string, FileManager.JobFileBinding>,
    now: Time,
    owed: set<string>,              // close handlers that still owe their event
    past: map<string, JobState>,    // states noted earlier
    begun: map<string, JobState>)   // where the turn under way began

  function Known(states: map<string, JobState>, j: string): Option<JobState> {
    if j in states then Some(states[j]) else None
  }

  ghost predicate Tracks(mc: Machine, w: World, j: string)
    requires j in w.m && j in w.jobs
  {
    var s := w.m[j];
    (&& s.core.row == w.jobs[j] && s.now == w.now && s.core.disk == DiskOf(w.files, j)
     && s.log == Kinds(w.events, j) && s.closeLogPending == (j in w.owed)
     && mc.lived(j, Known(w.past, j), Known(w.begun, j), s)) == true
  }

  ghost predicate Agree(cfg: Config, mc: Machine, w: World) {
    (Genuine(cfg, mc) && Coherent(mc, w)) == true
  }

  /** Nothing of another job has changed. */
  ghost predicate Apart(w: World, v: World, j: string) {
    Kinds(v.events, j) == Kinds(w.events, j) && (j in v.owed <==> j in w.owed) && DiskOf(v.files, j) == DiskOf(w.files, j)
  }

  function Moved(mc: Machine, m: map<string, JobState>, id: string, i: Input): map<string, JobState>
    requires id in m
  {
    m[id := mc.next(m[id], i)]
  }

  /** Machines and rows are of the same jobs, and nothing is owed to, or known of, any other. */
  predicate SameJobs(w: World) {
    w.m.Keys == w.jobs.Keys && w.owed <= w.m.Keys && w.past.Keys <= w.m.Keys && w.begun.Keys <= w.m.Keys
  }

  ghost predicate Coherent(mc: Machine, w: World) {
    SameJobs(w) && forall j :: j in w.m ==> Tracks(mc, w, j)
  }

  lemma AllTracked(cfg: Config, mc: Machine, w: World)
    requires Genuine(cfg, mc) && SameJobs(w) && forall j :: j in w.m ==> Tracks(mc, w, j)
    ensures Agree(cfg, mc, w)
  {
  }

  /** Nothing has changed but this job, whose machine and row are these. */
  ghost predicate Only(w: World, v: World, id: string, s: JobState, row: ControlJob) {
    && v.m == w.m[id := s] && v.jobs == w.jobs[id := row] && v.now == w.now && v.owed <= w.owed + {id}
    && v.past == w.past && v.begun == w.begun
    && forall j :: j != id ==> Apart(w, v, j)
  }

  /** One job moves, and the world with it. */
  lemma OneJobMoves(mc: Machine, w: World, v: World, id: string, s: JobState, row: ControlJob)
    requires Coherent(mc, w) && id in w.m && Only(w, v, id, s, row) && Tracks(mc, v, id)
    ensures Coherent(mc, v)
  {
    forall j | j in v.m ensures Tracks(mc, v, j) {
      if j != id {
        assert Tracks(mc, w, j) && Apart(w, v, j);
      }
    }
  }

  // --- The moves of other requests -----------------------------------------------------------------

  function WithTick(mc: Machine, w: World, d: nat): World {
    w.(now := w.now + d, m := map j | j in w.m :: mc.next(w.m[j], Tick(d)))
  }

  function WithClose(mc: Machine, w: World, id: string): World
    requires id in w.m && id in w.jobs
  {
    var (row, moved) := CloseRow(w.jobs[id], w.now);
    w.(m := Moved(mc, w.m, id, CloseRequest), jobs := w.jobs[id := row], owed := if moved then w.owed + {id} else w.owed)
  }

  function WithCloseEvent(mc: Machine, w: World, id: string): World
    requires id in w.m
  {
    w.(m := Moved(mc, w.m, id, CloseHandlerLogs),
       events := w.events + [Event(id, JobCloseRequested, CleaningRJobs, Stamp(w.now))], owed := w.owed - {id})
  }

  function WithJob(w: World, id: string, r: string): World {
    w.(m := w.m[id := Init(id, r, w.now)], jobs := w.jobs[id := NewControlJob(id, r, w.now)],
       events := w.events + [Event(id, JobCreated, ValidatingRequest, Stamp(w.now))])
  }

  lemma TickAgrees(cfg: Config, mc: Machine, w: World, d: nat)
    requires Agree(cfg, mc, w)
    ensures Agree(cfg, mc, WithTick(mc, w, d))
  {
    var v := WithTick(mc, w, d);
    forall j | j in v.m ensures Tracks(mc, v, j) {
      TickTracks(cfg, mc, w, d, j);
    }
    AllTracked(cfg, mc, v);
  }

  lemma TickTracks(cfg: Config, mc: Machine, w: World, d: nat, j: string)
    requires Agree(cfg, mc, w) && j in w.m
    ensures j in w.jobs && Tracks(mc, WithTick(mc, w, d), j)
  {
    assert Tracks(mc, w, j);
    assert mc.next(w.m[j], Tick(d)) == Next(cfg, w.m[j], Tick(d));
  }

  lemma CloseAgrees(cfg: Config, mc: Machine, w: World, id: string)
    requires Agree(cfg, mc, w) && id in w.m
    ensures Agree(cfg, mc, WithClose(mc, w, id))
  {
    assert Tracks(mc, w, id);
    var s := Next(cfg, w.m[id], CloseRequest);
    CloseMoves(mc, w, id, s);
    AllTracked(cfg, mc, WithClose(mc, w, id));
  }

  lemma CloseMoves(mc: Machine, w: World, id: string, s: JobState)
    requires Coherent(mc, w) && id in w.m && mc.next(w.m[id], CloseRequest) == s == StepClose(w.m[id])
    requires mc.lived(id, Known(w.past, id), Known(w.begun, id), s)
    ensures Coherent(mc, WithClose(mc, w, id))
  {
    assert Tracks(mc, w, id);
    assert CloseRow(w.jobs[id], w.now).0 == s.core.row;
    OneJobMoves(mc, w, WithClose(mc, w, id), id, s, s.core.row);
  }

  /** One job's machine appends its event. */
  lemma EventMoves(mc: Machine, w: World, v: World, e: Event, s: JobState)
    requires Coherent(mc, w) && e.jobId in w.m && e.kind != JobCreated
    requires v == w.(m := w.m[e.jobId := s], events := w.events + [e], owed := v.owed)
    requires v.owed == w.owed || v.owed == w.owed - {e.jobId}
    requires s.core.row == w.m[e.jobId].core.row && s.core.disk == w.m[e.jobId].core.disk && s.now == w.now
    requires s.log == w.m[e.jobId].log + [e.kind] && s.closeLogPending == (e.jobId in v.owed)
    requires mc.lived(e.jobId, Known(w.past, e.jobId), Known(w.begun, e.jobId), s)
    ensures Coherent(mc, v)
  {
    OthersKindsStay(w.events, e);
    assert Tracks(mc, w, e.jobId);
    assert w.jobs[e.jobId := w.jobs[e.jobId]] == w.jobs;
    OneJobMoves(mc, w, v, e.jobId, s, w.jobs[e.jobId]);
  }

  lemma CloseEventAgrees(cfg: Config, mc: Machine, w: World, id: string)
    requires Agree(cfg, mc, w) && id in w.owed
    ensures Agree(cfg, mc, WithCloseEvent(mc, w, id))
  {
    assert Tracks(mc, w, id);
    var s := Next(cfg, w.m[id], CloseHandlerLogs);
    assert s == w.m[id].(log := w.m[id].log + [JobCloseRequested], closeLogPending := false);
    EventMoves(mc, w, WithCloseEvent(mc, w, id), Event(id, JobCloseRequested, CleaningRJobs, Stamp(w.now)), s);
  }

  lemma JobAppears(mc: Machine, w: World, v: World, id: string, s: JobState, row: ControlJob, e: Event)
    requires Coherent(mc, w) && id !in w.m && Kinds(w.events, id) == [] && e.jobId == id && e.kind == JobCreated
    requires v == w.(m := w.m[id := s], jobs := w.jobs[id := row], events := w.events + [e])
    requires s.core.row == row && s.now == w.now && s.core.disk == DiskOf(w.files, id) && s.log == []
    requires !s.closeLogPending && mc.lived(id, None, None, s)
    ensures Coherent(mc, v)
  {
    OthersKindsStay(w.events, e);
    OneJobAdded(mc, w, v, id);
  }

  lemma OneJobAdded(mc: Machine, w: World, v: World, id: string)
    requires Coherent(mc, w) && id !in w.m && v.now == w.now && v.owed == w.owed && v.past == w.past && v.begun == w.begun
    requires v.m.Keys == v.jobs.Keys == w.m.Keys + {id} && Tracks(mc, v, id)
    requires forall j :: j in w.m ==> v.m[j] == w.m[j] && v.jobs[j] == w.jobs[j] && Apart(w, v, j)
    ensures Coherent(mc, v)
  {
    forall j | j in v.m ensures Tracks(mc, v, j) {
      if j != id {
        assert Tracks(mc, w, j) && Apart(w, v, j);
      }
    }
  }

  lemma JobAgrees(cfg: Config, mc: Machine, w: World, id: string, r: string)
    requires Agree(cfg, mc, w) && id !in w.m && id !in w.files && Kinds(w.events, id) == []
    ensures Agree(cfg, mc, WithJob(w, id, r))
  {
    JobAppears(mc, w, WithJob(w, id, r), id, Init(id, r, w.now), NewControlJob(id, r, w.now),
               Event(id, JobCreated, ValidatingRequest, Stamp(w.now)));
  }

  // --- What a suspended coroutine may rely on -----------------------------------------------------

  /** Another request may have closed the job; the coroutine's own state is untouched. */
  ghost predicate Nudged(a: JobState, b: JobState) {
    (b.core == a.core.(row := b.core.row) && b.listed == a.listed && b.swept == a.swept) == true
  }

  ghost predicate Fresh(s: JobState) {
    s.core.pc.Idle? && s.listed.None? && !s.swept
  }

  ghost predicate OnlyNudged(a: map<string, JobState>, b: map<string, JobState>) {
    && (forall j :: j in a ==> j in b && Nudged(a[j], b[j]))
    && (forall j :: j in b && j !in a ==> Fresh(b[j]))
  }

  lemma NudgedTwice(a: map<string, JobState>, b: map<string, JobState>, c: map<string, JobState>)
    requires OnlyNudged(a, b) && OnlyNudged(b, c)
    ensures OnlyNudged(a, c)
  {
    forall j | j in a ensures j in c && Nudged(a[j], c[j]) {
      assert Nudged(a[j], b[j]) && Nudged(b[j], c[j]);
    }
    forall j | j in c && j !in a ensures Fresh(c[j]) {
      assert j in b ==> Fresh(b[j]) && Nudged(b[j], c[j]);
    }
  }

  lemma TickNudges(cfg: Config, mc: Machine, w: World, d: nat)
    requires Genuine(cfg, mc)
    ensures OnlyNudged(w.m, WithTick(mc, w, d).m)
  {
    forall j | j in w.m ensures Nudged(w.m[j], WithTick(mc, w, d).m[j]) {
      assert WithTick(mc, w, d).m[j] == Next(cfg, w.m[j], Tick(d));
    }
  }

  lemma MoveNudges(cfg: Config, mc: Machine, m: map<string, JobState>, id: string, i: Input)
    requires Genuine(cfg, mc) && id in m && (i.CloseRequest? || i.CloseHandlerLogs?)
    ensures OnlyNudged(m, Moved(mc, m, id, i))
  {
    assert mc.next(m[id], i) == Next(cfg, m[id], i);
  }

  lemma JobNudges(m: map<string, JobState>, id: string, r: string, now: Time)
    requires id !in m
    ensures OnlyNudged(m, m[id := Init(id, r, now)])
  {
  }

  /** Only this job's turn is under way. */
  ghost predicate OthersIdle(m: map<string, JobState>, id: string) {
    forall j :: j in m && j != id ==> m[j].core.pc.Idle?
  }

  lemma OthersStayIdle(a: map<string, JobState>, b: map<string, JobState>, id: string)
    requires OthersIdle(a, id) && OnlyNudged(a, b)
    ensures OthersIdle(b, id)
  {
    forall j | j in b && j != id ensures b[j].core.pc.Idle? {
      assert j in a ==> Nudged(a[j], b[j]);
      assert j !in a ==> Fresh(b[j]);
    }
  }
}
