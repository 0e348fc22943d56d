/**
 Any number of bind calls, with crashes anywhere and templates edited in between; and the reason
 why the reconciliation machine may treat the published directory as one write-once value.
 */
module BindHistory {
  import opened Wrappers
  import opened ControlStore
  import opened FileManager
  import JobMachine

  datatype Call = Call(jobId: string, rangeId: string, catalog: CatalogAnswer, outcome: Outcome)

  /** Consecutive bind calls, whatever the catalog answered and however they ended. */
  ghost predicate History(states: seq<map<string, JobFileBinding>>, calls: seq<Call>) {
    && |states| == |calls| + 1
    && (forall i :: 0 <= i < |calls| ==>
          && BindStep(states[i], calls[i].jobId, calls[i].rangeId, calls[i].catalog, calls[i].outcome, states[i + 1])
          && (calls[i].catalog.Found? ==> calls[i].catalog.range.rangeId == calls[i].rangeId))
  }

  lemma {:induction false} BindingsStay(states: seq<map<string, JobFileBinding>>, calls: seq<Call>, i: nat, j: nat,
                                        job: string)
    requires History(states, calls) && i <= j < |states| && job in states[i]
    ensures job in states[j] && states[j][job] == states[i][job]
    decreases j - i
  {
    if i < j {
      BindingsStay(states, calls, i, j - 1, job);
      assert BindStep(states[j - 1], calls[j - 1].jobId, calls[j - 1].rangeId, calls[j - 1].catalog,
                      calls[j - 1].outcome, states[j]);
    }
  }

  /**
   The first publication wins.  Once a call has published a job's inputs, whether it returned or
   died, every later call for the same job and range, while the range is available, returns exactly that
   binding, or fails to read it, or dies; whatever the templates say by then, it never returns another
   binding and never reports a partial one.
   */
  lemma FirstPublicationWins(states: seq<map<string, JobFileBinding>>, calls: seq<Call>, i: nat, j: nat)
    requires History(states, calls) && i < j < |calls|
    requires calls[i].jobId == calls[j].jobId && calls[i].rangeId == calls[j].rangeId
    requires calls[i].jobId in states[i + 1] && states[i + 1][calls[i].jobId].rangeId == calls[i].rangeId
    requires SafeName(calls[j].jobId) && calls[j].catalog.Found? && calls[j].catalog.range.available
    ensures var o := calls[j].outcome;
            || o == Bound(states[i + 1][calls[i].jobId]) || o == OsError || o == Died
    ensures calls[i].outcome.Bound? && calls[j].outcome.Bound? ==> calls[j].outcome == calls[i].outcome
  {
    BindingsStay(states, calls, i + 1, j, calls[i].jobId);
    assert BindStep(states[j], calls[j].jobId, calls[j].rangeId, calls[j].catalog, calls[j].outcome, states[j + 1]);
    assert BindStep(states[i], calls[i].jobId, calls[i].rangeId, calls[i].catalog, calls[i].outcome, states[i + 1]);
  }

  /** A call that returns a binding has published it, or found it, for the range it was asked for. */
  lemma BoundIsPublished(states: seq<map<string, JobFileBinding>>, calls: seq<Call>, i: nat)
    requires History(states, calls) && i < |calls| && calls[i].outcome.Bound?
    ensures calls[i].jobId in states[i + 1] && states[i + 1][calls[i].jobId] == calls[i].outcome.binding
    ensures calls[i].outcome.binding.rangeId == calls[i].rangeId
  {
    assert BindStep(states[i], calls[i].jobId, calls[i].rangeId, calls[i].catalog, calls[i].outcome, states[i + 1]);
  }

  // --- The machine's view ------------------------------------------------------------------------

  function Summary(b: JobFileBinding): Binding {
    Binding(b.jobId, b.rangeId, b.totalEpisodes, b.agentSum + b.datasetSum + b.startSum + b.gatewaySum)
  }

  function DiskOf(published: map<string, JobFileBinding>, job: string): Option<Binding> {
    if job in published then Some(Summary(published[job])) else None
  }

  /** The machine's step after a bind call that ended in this way. */
  ghost predicate Agrees(s: JobMachine.Core, o: Outcome, a: JobMachine.BindAnswer) {
    match o
    case Bound(b) =>
      JobMachine.StepBindFiles(s, a) == s.(disk := Some(Summary(b)), pc := JobMachine.SaveBinding(Summary(b)))
    case Failed(_) =>
      JobMachine.StepBindFiles(s, a) == s.(pc := JobMachine.FailRead(FileBindingFailed, JobMachine.InBinding))
    case Untrusted => JobMachine.StepBindFiles(s, a) == s.(pc := JobMachine.Raise(JobMachine.Dependency))
    case OsError => JobMachine.StepBindFiles(s, a) == s.(pc := JobMachine.Raise(JobMachine.Unexpected))
    case Died => true
  }

  /**
   Every bind call is one answer of the machine's environment: it changes the published value the
   same way, and the machine continues as the coroutine does.
   */
  lemma BindRefinesMachine(s: JobMachine.Core, before: map<string, JobFileBinding>, catalog: CatalogAnswer, o: Outcome,
                           after: map<string, JobFileBinding>) returns (a: JobMachine.BindAnswer)
    requires BindStep(before, s.row.jobId, s.row.rangeId, catalog, o, after)
    requires catalog.Found? ==> catalog.range.rangeId == s.row.rangeId
    requires s.disk == DiskOf(before, s.row.jobId)
    requires s.row.jobId in before ==> before[s.row.jobId].jobId == s.row.jobId
    ensures DiskOf(after, s.row.jobId) == JobMachine.Published(s.row, s.disk, a)
    ensures Agrees(s, o, a)
  {
    var job := s.row.jobId;
    if job in after && (o.Bound? || job !in before) {
      var b := after[job];
      a := JobMachine.Rendered(b.totalEpisodes, Summary(b).contentDigest);
    } else if o.Untrusted? {
      a := JobMachine.BindRaises(JobMachine.Dependency);
    } else if o.OsError? {
      a := JobMachine.BindRaises(JobMachine.Unexpected);
    } else {
      a := JobMachine.CannotBind;
    }
  }
}
