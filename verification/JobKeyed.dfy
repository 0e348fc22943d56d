/**
 A platform whose create is keyed by idempotency key: creating twice under one key gives the
 same platform job.  Under it, crashes cost at most what was never recorded.
 */
module JobKeyed {
  import opened Wrappers
  import opened ControlStore
  import opened Platform
  import opened JobMachine
  import opened JobInvariant
  import opened JobTraces
  import opened JobTheorems
  import opened JobEvidence

  // --- The keys ----------------------------------------------------------------------------------

  function KeySuffix(role: Role): string {
    match role
    case Gateway => ":gateway"
    case Controller => ":controller"
  }

  function Key(jobId: string, role: Role): string {
    jobId + KeySuffix(role)
  }

  /** Different jobs, and the two roles of one job, never share a key. */
  lemma KeysAreDistinct(a: string, r: Role, b: string, q: Role)
    ensures Key(a, r) == Key(b, q) <==> a == b && r == q
  {
    var k := Key(a, r);
    var l := Key(b, q);
    if k == l {
      assert k[|k| - 1] == KeySuffix(r)[|KeySuffix(r)| - 1];
      assert l[|l| - 1] == KeySuffix(q)[|KeySuffix(q)| - 1];
      assert r == q;
      assert |a| == |b|;
      assert a == k[..|a|] == l[..|b|] == b;
    }
  }

  // --- Traces of a keyed platform ----------------------------------------------------------------

  predicate CreatedAs(t: Trace, role: Role, id: RJobId) {
    t.Then? && (t.op == Created(role, id) || CreatedAs(t.before, role, id))
  }

  /** One platform job per key, and different platform jobs under different keys. */
  ghost predicate Keyed(t: Trace) {
    && (forall r, id, other :: CreatedAs(t, r, id) && CreatedAs(t, r, other) ==> id == other)
    && (forall id, other :: CreatedAs(t, Gateway, id) && CreatedAs(t, Controller, other) ==> id != other)
  }

  function RecordedId(row: ControlJob, role: Role): Option<RJobId> {
    match role
    case Gateway => row.gatewayId
    case Controller => row.controllerId
  }

  /** Created for a role whose column is still empty. */
  predicate Unrecorded(t: Trace, row: ControlJob, id: RJobId) {
    (CreatedAs(t, Gateway, id) && row.gatewayId.None?) || (CreatedAs(t, Controller, id) && row.controllerId.None?)
  }

  /** The orphans are exactly the unrecorded jobs, and every recorded id was created. */
  ghost predicate Accounted(t: Trace, row: ControlJob) {
    (&& (forall id :: id in Orphans(t) <==> Unrecorded(t, row, id))
     && (row.gatewayId.Some? ==> CreatedAs(t, Gateway, row.gatewayId.value))
     && (row.controllerId.Some? ==> CreatedAs(t, Controller, row.controllerId.value))) == true
  }

  /** The id about to be written was created for its role. */
  predicate Saves(t: Trace, pc: PC) {
    && (pc.SaveGateway? ==> CreatedAs(t, Gateway, pc.id))
    && (pc.SaveController? || pc.SaveControllerWhileClosing? ==> CreatedAs(t, Controller, pc.id))
  }

  ghost predicate KeyInv(s: Core) {
    (Accounted(s.ops, s.row) && Saves(s.ops, After(s.pc))) == true
  }

  lemma OneMore(t: Trace, op: Op)
    ensures forall r, id :: CreatedAs(Then(t, op), r, id) <==> op == Created(r, id) || CreatedAs(t, r, id)
  {
  }

  lemma PlainOp(t: Trace, row: ControlJob, op: Op)
    requires Accounted(t, row) && !op.Created? && !op.Recorded? && !op.Stopped?
    ensures Accounted(Then(t, op), row)
  {
    OneMore(t, op);
  }

  lemma CreateOp(t: Trace, row: ControlJob, role: Role, id: RJobId)
    requires Accounted(t, row) && RecordedId(row, role).None?
    ensures Accounted(Then(t, Created(role, id)), row) && CreatedAs(Then(t, Created(role, id)), role, id)
  {
    OneMore(t, Created(role, id));
  }

  lemma RecordOp(t: Trace, row: ControlJob, next: ControlJob, role: Role, id: RJobId)
    requires Accounted(t, row) && Keyed(t) && CreatedAs(t, role, id) && RecordedId(row, role).None?
    requires next.gatewayId == (if role.Gateway? then Some(id) else row.gatewayId)
    requires next.controllerId == (if role.Controller? then Some(id) else row.controllerId)
    ensures Accounted(Then(t, Recorded(role, id)), next)
  {
    OneMore(t, Recorded(role, id));
  }

  lemma StopOp(t: Trace, row: ControlJob, role: Role, id: RJobId)
    requires Accounted(t, row) && Keyed(t) && RecordedId(row, role) == Some(id)
    ensures Accounted(Then(t, Stopped(role, id)), row)
  {
    OneMore(t, Stopped(role, id));
  }

  lemma CreatesKeyed(cfg: Config, s: Core, now: Time, a: Answer)
    requires CoreInv(cfg, s, now) && KeyInv(s) && (s.pc.CreateGateway? || s.pc.CreateController?)
    ensures KeyInv(StepCore(cfg, s, now, a))
  {
    var role := if s.pc.CreateGateway? then Gateway else Controller;
    var issued := Then(s.ops, CreateIssued(role));
    PlainOp(s.ops, s.row, CreateIssued(role));
    var r := StepCore(cfg, s, now, a);
    assert r.row == s.row;
    if r.ops != issued {
      assert r.ops == Then(issued, Created(role, r.ops.op.id));
      CreateOp(issued, s.row, role, r.ops.op.id);
    }
  }

  lemma SaveGatewayKeyed(cfg: Config, s: Core, now: Time, a: Answer)
    requires CoreInv(cfg, s, now) && KeyInv(s) && Keyed(s.ops) && s.pc.SaveGateway?
    ensures KeyInv(StepCore(cfg, s, now, a))
    ensures StepCore(cfg, s, now, a).row.gatewayId == Some(s.pc.id)
  {
    var r := StepCore(cfg, s, now, a);
    assert r.ops == Then(s.ops, Recorded(Gateway, s.pc.id)) && r.row.gatewayId == Some(s.pc.id);
    RecordOp(s.ops, s.row, r.row, Gateway, s.pc.id);
  }

  lemma SaveControllerKeyed(cfg: Config, s: Core, now: Time, a: Answer)
    requires CoreInv(cfg, s, now) && KeyInv(s) && Keyed(s.ops)
    requires s.pc.SaveController? || s.pc.SaveControllerWhileClosing?
    ensures KeyInv(StepCore(cfg, s, now, a))
    ensures s.row.status != Closing || s.pc.SaveControllerWhileClosing? ==>
              StepCore(cfg, s, now, a).row.controllerId == Some(s.pc.id)
  {
    var r := StepCore(cfg, s, now, a);
    if r.pc.SaveControllerWhileClosing? {
      assert r == s.(pc := r.pc) && r.pc.id == s.pc.id;
    } else {
      assert r.ops == Then(s.ops, Recorded(Controller, s.pc.id)) && r.row.controllerId == Some(s.pc.id);
      RecordOp(s.ops, s.row, r.row, Controller, s.pc.id);
    }
  }

  lemma StopsKeyed(cfg: Config, s: Core, now: Time, a: Answer)
    requires CoreInv(cfg, s, now) && KeyInv(s) && Keyed(s.ops) && (s.pc.StopController? || s.pc.StopGateway?)
    ensures KeyInv(StepCore(cfg, s, now, a))
  {
    var role := if s.pc.StopGateway? then Gateway else Controller;
    var issued := Then(s.ops, StopIssued(role, s.pc.id));
    PlainOp(s.ops, s.row, StopIssued(role, s.pc.id));
    OneMore(s.ops, StopIssued(role, s.pc.id));
    var r := StepCore(cfg, s, now, a);
    assert r.row == s.row;
    if a.stop.StopReturns? {
      assert r.ops == Then(issued, Stopped(role, s.pc.id));
      StopOp(issued, s.row, role, s.pc.id);
    } else {
      assert r.ops == Then(issued, StopRaised(role, s.pc.id));
      PlainOp(issued, s.row, StopRaised(role, s.pc.id));
    }
  }

  lemma CleansFlyNothing(cfg: Config, s: Core, now: Time, a: Answer)
    requires s.pc.CleanRead? || s.pc.CleanSkip? || s.pc.CleanWrite?
    ensures InFlight(After(StepCore(cfg, s, now, a).pc)) == {}
  {
    var pc := StepCore(cfg, s, now, a).pc;
    assert pc.Log? ==> After(pc) == After(pc.next);
    assert pc.Log? && pc.next.Log? ==> After(pc) == After(pc.next.next);
  }

  lemma CleansKeyed(cfg: Config, s: Core, now: Time, a: Answer)
    requires KeyInv(s) && (s.pc.CleanRead? || s.pc.CleanSkip? || s.pc.CleanWrite?)
    ensures KeyInv(StepCore(cfg, s, now, a))
  {
    var r := StepCore(cfg, s, now, a);
    CleansFlyNothing(cfg, s, now, a);
    assert r.row.gatewayId == s.row.gatewayId && r.row.controllerId == s.row.controllerId;
    if r.ops != s.ops {
      PlainOp(s.ops, s.row, r.ops.op);
    }
  }

  lemma OthersFlyNothing(cfg: Config, s: Core, now: Time, a: Answer)
    requires !Dealing(s.pc) && !s.pc.Log?
    ensures InFlight(Behind(StepCore(cfg, s, now, a).pc)) == {}
  {
    if BindingFiles(s.pc) {
    } else if ProbingGateway(s.pc) {
    } else if s.pc.SaveControllerStatus? {
    } else if s.pc.CheckBeforeController? {
    }
  }

  /** Steps that deal neither with the platform nor with the ids. */
  lemma UntouchedKeyed(cfg: Config, s: Core, now: Time, a: Answer)
    requires KeyInv(s) && Untouched(cfg, s, StepCore(cfg, s, now, a)) && !Dealing(s.pc) && !s.pc.Log?
    ensures KeyInv(StepCore(cfg, s, now, a))
  {
    var r := StepCore(cfg, s, now, a);
    OthersFlyNothing(cfg, s, now, a);
    OneEventAtATime(cfg, s, now, a);
    assert After(r.pc) == Behind(r.pc);
    assert forall id :: Unrecorded(s.ops, s.row, id) == Unrecorded(s.ops, r.row, id);
  }

  lemma StepKeepsKeys(cfg: Config, s: Core, now: Time, a: Answer)
    requires CoreInv(cfg, s, now) && KeyInv(s) && Keyed(s.ops)
    ensures KeyInv(StepCore(cfg, s, now, a))
  {
    if s.pc.Log? {
      assert After(s.pc) == After(s.pc.next);
    } else if s.pc.CreateGateway? || s.pc.CreateController? {
      CreatesKeyed(cfg, s, now, a);
    } else if s.pc.SaveGateway? {
      SaveGatewayKeyed(cfg, s, now, a);
    } else if CreatingRJobs(s.pc) {
      SaveControllerKeyed(cfg, s, now, a);
    } else if s.pc.StopController? || s.pc.StopGateway? {
      StopsKeyed(cfg, s, now, a);
    } else if CleaningUp(s.pc) {
      CleansKeyed(cfg, s, now, a);
    } else {
      if BindingFiles(s.pc) {
        BindingDoesNotTouch(cfg, s, now, a);
      } else if ProbingGateway(s.pc) {
        ProbingDoesNotTouch(cfg, s, now, a);
      } else {
        OtherStepsDoNotTouch(cfg, s, now, a);
      }
      UntouchedKeyed(cfg, s, now, a);
    }
  }

  lemma NextKeepsKeys(cfg: Config, s: JobState, i: Input)
    requires AllInv(cfg, s) && KeyInv(s.core) && Keyed(s.core.ops)
    ensures KeyInv(Next(cfg, s, i).core)
  {
    assert CoreInv(cfg, s.core, s.now);
    if i.Advance? {
      StepKeepsKeys(cfg, s.core, s.now, i.a);
    } else if i.CloseRequest? {
      var r := Next(cfg, s, i).core;
      assert forall id :: Unrecorded(s.core.ops, s.core.row, id) == Unrecorded(s.core.ops, r.row, id);
    }
  }

  // --- Runs --------------------------------------------------------------------------------------

  ghost predicate Extends(before: Trace, after: Trace) {
    forall r, id :: CreatedAs(before, r, id) ==> CreatedAs(after, r, id)
  }

  lemma StepExtends(cfg: Config, s: Core, now: Time, a: Answer)
    ensures Extends(s.ops, StepCore(cfg, s, now, a).ops)
  {
    var r := StepCore(cfg, s, now, a);
    if r.ops.Then? {
      OneMore(r.ops.before, r.ops.op);
      if r.ops.before.Then? {
        OneMore(r.ops.before.before, r.ops.before.op);
      }
    }
    assert r.ops == s.ops || r.ops.before == s.ops || r.ops.before.before == s.ops;
  }

  lemma NextExtends(cfg: Config, s: JobState, i: Input)
    requires Keyed(Next(cfg, s, i).core.ops)
    ensures Keyed(s.core.ops)
  {
    if i.Advance? {
      StepExtends(cfg, s.core, s.now, i.a);
    }
    assert Extends(s.core.ops, Next(cfg, s, i).core.ops);
  }

  lemma {:induction false} KeyedRun(cfg: Config, s: JobState, inputs: seq<Input>)
    requires AllInv(cfg, s) && KeyInv(s.core) && Keyed(Run(cfg, s, inputs).core.ops)
    ensures KeyInv(Run(cfg, s, inputs).core) && AllInv(cfg, Run(cfg, s, inputs))
    decreases |inputs|
  {
    if inputs != [] {
      var front := inputs[..|inputs| - 1];
      var last := inputs[|inputs| - 1];
      assert inputs == front + [last];
      RunSplits(cfg, s, front, last);
      var mid := Run(cfg, s, front);
      NextExtends(cfg, mid, last);
      KeyedRun(cfg, s, front);
      NextKeepsKeys(cfg, mid, last);
      NextKeepsAll(cfg, mid, last);
    }
  }

  /**
   With a keyed platform, whatever crashes happen and wherever: the platform jobs a settled job
   leaves alive are exactly those created for a role whose id never reached the row, so there are
   none once both ids are recorded; and a recorded id is the only one ever created for its role.
   */
  lemma KeyedLeaks(cfg: Config, jobId: string, rangeId: string, now: Time, inputs: seq<Input>)
    ensures var end := Run(cfg, Init(jobId, rangeId, now), inputs).core;
            Keyed(end.ops) ==>
              && (Settled(cfg, end.row) ==> forall id :: id in Live(end.ops) <==> Unrecorded(end.ops, end.row, id))
              && (forall role, id :: CreatedAs(end.ops, role, id) && RecordedId(end.row, role).Some?
                    ==> RecordedId(end.row, role) == Some(id))
              && (Settled(cfg, end.row) && end.row.gatewayId.Some? && end.row.controllerId.Some? ==> Live(end.ops) == {})
  {
    var s := Init(jobId, rangeId, now);
    var end := Run(cfg, s, inputs).core;
    InitHoldsAll(cfg, jobId, rangeId, now);
    LeaksAreExactlyOrphans(cfg, jobId, rangeId, now, inputs);
    if Keyed(end.ops) {
      KeyedRun(cfg, s, inputs);
      assert Accounted(end.ops, end.row);
    }
  }

  /**
   Healing: a turn that reaches the create call of a role whose platform job an earlier crash
   orphaned gets the same id from a keyed platform, and the next step writes it to the row.
   The gateway is written even when a close has come first.
   */
  lemma KeyedGatewayHeals(cfg: Config, jobId: string, rangeId: string, now: Time, inputs: seq<Input>,
                          lost: RJobId, id: RJobId, a: Answer, b: Answer)
    ensures var s := Run(cfg, Init(jobId, rangeId, now), inputs);
            var mid := StepAwait(cfg, s, a);
            var end := StepAwait(cfg, mid, b).core;
            s.core.pc.CreateGateway? && CreatedAs(s.core.ops, Gateway, lost) && a.create == CreateReturns(id)
            && Keyed(mid.core.ops) ==>
              id == lost && end.row.gatewayId == Some(lost) && lost !in Orphans(end.ops)
  {
    var s := Run(cfg, Init(jobId, rangeId, now), inputs);
    var mid := StepAwait(cfg, s, a);
    if s.core.pc.CreateGateway? && CreatedAs(s.core.ops, Gateway, lost) && a.create == CreateReturns(id)
       && Keyed(mid.core.ops) {
      KeyedSoFar(cfg, jobId, rangeId, now, inputs, a);
      GatewayHeals(cfg, s, lost, id, a, b);
    }
  }

  /** A run before a keyed step is keyed, and keeps the invariants. */
  lemma KeyedSoFar(cfg: Config, jobId: string, rangeId: string, now: Time, inputs: seq<Input>, a: Answer)
    requires Keyed(StepAwait(cfg, Run(cfg, Init(jobId, rangeId, now), inputs), a).core.ops)
    ensures var s := Run(cfg, Init(jobId, rangeId, now), inputs); AllInv(cfg, s) && KeyInv(s.core) && Keyed(s.core.ops)
  {
    var s := Run(cfg, Init(jobId, rangeId, now), inputs);
    InitHoldsAll(cfg, jobId, rangeId, now);
    NextExtends(cfg, s, Advance(a));
    KeyedRun(cfg, Init(jobId, rangeId, now), inputs);
  }

  lemma GatewayReturned(cfg: Config, s: JobState, lost: RJobId, id: RJobId, a: Answer)
    requires AllInv(cfg, s) && KeyInv(s.core) && s.core.pc.CreateGateway?
    requires CreatedAs(s.core.ops, Gateway, lost) && a.create == CreateReturns(id)
    requires Keyed(StepAwait(cfg, s, a).core.ops)
    ensures var mid := StepAwait(cfg, s, a);
            && AllInv(cfg, mid) && KeyInv(mid.core) && mid.core.pc == SaveGateway(id)
            && CreatedAs(mid.core.ops, Gateway, id) && CreatedAs(mid.core.ops, Gateway, lost)
  {
    StepExtends(cfg, s.core, s.now, a);
    CreatesKeyed(cfg, s.core, s.now, a);
    NextKeepsAll(cfg, s, Advance(a));
  }

  lemma GatewayHeals(cfg: Config, s: JobState, lost: RJobId, id: RJobId, a: Answer, b: Answer)
    requires AllInv(cfg, s) && KeyInv(s.core) && s.core.pc.CreateGateway?
    requires CreatedAs(s.core.ops, Gateway, lost) && a.create == CreateReturns(id)
    requires Keyed(StepAwait(cfg, s, a).core.ops)
    ensures var end := StepAwait(cfg, StepAwait(cfg, s, a), b).core;
            id == lost && end.row.gatewayId == Some(lost) && lost !in Orphans(end.ops)
  {
    GatewayReturned(cfg, s, lost, id, a);
    var mid := StepAwait(cfg, s, a);
    SaveGatewayKeyed(cfg, mid.core, mid.now, b);
  }

  lemma KeyedControllerCreate(cfg: Config, s: JobState, lost: RJobId, id: RJobId, a: Answer)
    requires AllInv(cfg, s) && KeyInv(s.core) && s.core.pc.CreateController?
    requires CreatedAs(s.core.ops, Controller, lost) && a.create == CreateReturns(id)
    requires Keyed(StepAwait(cfg, s, a).core.ops)
    ensures var mid := StepAwait(cfg, s, a);
            id == lost && AllInv(cfg, mid) && KeyInv(mid.core) && mid.core.row == s.core.row
            && mid.core.pc.SaveController? && mid.core.pc.id == lost
  {
    var mid := StepAwait(cfg, s, a);
    StepExtends(cfg, s.core, s.now, a);
    CreatesKeyed(cfg, s.core, s.now, a);
    NextKeepsAll(cfg, s, Advance(a));
    assert CreatedAs(mid.core.ops, Controller, id);
  }

  lemma FallBack(cfg: Config, s: Core, now: Time, b: Answer)
    requires s.pc.SaveController? && s.row.status == Closing
    ensures StepCore(cfg, s, now, b) ==
            s.(pc := SaveControllerWhileClosing(s.pc.startedAt, s.pc.g, s.pc.id, s.pc.at))
  {
  }

  lemma ControllerWritten(cfg: Config, s: Core, now: Time, b: Answer)
    requires CoreInv(cfg, s, now) && KeyInv(s) && Keyed(s.ops)
    requires s.pc.SaveControllerWhileClosing? || (s.pc.SaveController? && s.row.status != Closing)
    ensures var r := StepCore(cfg, s, now, b); r.row.controllerId == Some(s.pc.id) && s.pc.id !in Orphans(r.ops)
  {
    SaveControllerKeyed(cfg, s, now, b);
  }

  /** The same for the controller; when a close has come first, the fallback write does it one step later. */
  lemma KeyedControllerHeals(cfg: Config, jobId: string, rangeId: string, now: Time, inputs: seq<Input>,
                             lost: RJobId, id: RJobId, a: Answer, b: Answer, c: Answer)
    ensures var s := Run(cfg, Init(jobId, rangeId, now), inputs);
            var saved := StepAwait(cfg, StepAwait(cfg, s, a), b);
            var end := if s.core.row.status == Closing then StepAwait(cfg, saved, c) else saved;
            s.core.pc.CreateController? && CreatedAs(s.core.ops, Controller, lost) && a.create == CreateReturns(id)
            && Keyed(StepAwait(cfg, s, a).core.ops) ==>
              id == lost && end.core.row.controllerId == Some(lost) && lost !in Orphans(end.core.ops)
  {
    var s := Run(cfg, Init(jobId, rangeId, now), inputs);
    if s.core.pc.CreateController? && CreatedAs(s.core.ops, Controller, lost) && a.create == CreateReturns(id)
       && Keyed(StepAwait(cfg, s, a).core.ops) {
      KeyedSoFar(cfg, jobId, rangeId, now, inputs, a);
      ControllerHeals(cfg, s, lost, id, a, b, c);
    }
  }

  lemma ControllerHeals(cfg: Config, s: JobState, lost: RJobId, id: RJobId, a: Answer, b: Answer, c: Answer)
    requires AllInv(cfg, s) && KeyInv(s.core) && s.core.pc.CreateController?
    requires CreatedAs(s.core.ops, Controller, lost) && a.create == CreateReturns(id)
    requires Keyed(StepAwait(cfg, s, a).core.ops)
    ensures var saved := StepAwait(cfg, StepAwait(cfg, s, a), b);
            var end := if s.core.row.status == Closing then StepAwait(cfg, saved, c) else saved;
            id == lost && end.core.row.controllerId == Some(lost) && lost !in Orphans(end.core.ops)
  {
    var mid := StepAwait(cfg, s, a);
    KeyedControllerCreate(cfg, s, lost, id, a);
    if s.core.row.status == Closing {
      FallBackWrites(cfg, mid, b, c);
    } else {
      assert CoreInv(cfg, mid.core, mid.now);
      ControllerWritten(cfg, mid.core, mid.now, b);
    }
  }

  lemma FallBackWrites(cfg: Config, s: JobState, b: Answer, c: Answer)
    requires AllInv(cfg, s) && KeyInv(s.core) && Keyed(s.core.ops) && s.core.pc.SaveController? && s.core.row.status == Closing
    ensures var end := StepAwait(cfg, StepAwait(cfg, s, b), c).core;
            end.row.controllerId == Some(s.core.pc.id) && s.core.pc.id !in Orphans(end.ops)
  {
    var saved := StepAwait(cfg, s, b);
    FallBack(cfg, s.core, s.now, b);
    NextKeepsAll(cfg, s, Advance(b));
    assert CoreInv(cfg, saved.core, saved.now);
    ControllerWritten(cfg, saved.core, saved.now, c);
  }
}
