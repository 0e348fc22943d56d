# SafactoryServer, verified

A Dafny model of the job server in `src/server` and of the geometry environment in `env/geo3k`, with
proofs of what they promise.  `dafny verify dfyconfig.toml` checks everything.

## What is modelled

**The reconciliation of jobs** (`ControlStore`, `Platform`, `Gateways`, `Job*`, `World`, `OwnMoves`,
`Passes`, `Orchestrator`, `PassTheorems`, `ServiceTheorems`).  A loop drives every job through its files, its gateway and its
controller to success, failure or closure, while close requests commit, clocks move, the platform
answers or raises as it likes, and the process may die at any await.  The loop is a coroutine, so it is described
twice.  `JobMachine` is one job as a state machine with a program counter: one step is the stretch
from one await to the next, and everything else arrives as an input, in any order.  The theorems are
about all runs of that machine.  `Orchestrator` is the code itself: a class over the job table
(`ControlStore.Store`) and the shared directory (`FileManager.SharedFiles`), where other requests run
at every await, as many as they like.  Its methods are proved to move each job by steps of the
machine only, and its passes to give every listed row its visit: `PassTheorems` says what passes
achieve, and `ServiceTheorems` carries the other theorems over to the table.  `OwnMoves` holds the
agreement await by await.  The machine keeps a trace of creates, stops and recorded ids, the
observations of a turn, the committed statuses and the log; they are only read by proofs.
`JobVerdicts` reads a verdict off the observations of a turn, without the machine, and shows that turns
do what it says.

**Landing rows** (`Landing`, `LandingViews`, `LandingOrder`, `LandingTies`, `Reporting`).  Rows arrive unordered and
repeated; from them come a numbered step index, a trajectory lookup and a session result, which is
then merged with the status of the job.  The last theorem joins this with the machine.

**Publication of job files** (`Mounts`, `Sources`, `FileManager`, `BindHistory`).  Inputs are rendered into a
staging directory and renamed into place.  A script decides for every file operation whether it
works, fails, or kills the process.

**Answers** (`Text`, `Thinking`, `Boxed`, `Splits`, `Commas`, `Fracs`, `Geo3kRun`).  What a reply says outside its
thinking, boxed answers, the rewriting passes of answer grading, and the turn loop that uses them.

**Addresses** (`AddressExtraction`, `AddressWalk`, `AddressRanking`, `AddressKinds`).  The depth-bounded walk of a
platform report, what exactly it finds, and the ranking of that, told by the keys of the report.  Identities of dictionaries built
during the walk are memory addresses, chosen by the environment and possibly reused.

## Where the code promises less than it seems

- A job can leave a platform job behind: `JobRuns.CrashBeforeTheRowWriteLeaks` and
  `JobRuns.RaisingCreateLeaks` are runs that do.  `JobTheorems.LeaksAreExactlyOrphans` says that
  nothing else leaks.  The deployment guide (docs/PHASE2_DEPLOYMENT.md:103-105) relies on creates that
  look for an existing job first; `JobKeyed` shows what that gives: a later turn finds the lost job
  again, but a close that comes before that turn still leaves it behind.
- A pass (`reconcile_once`) does not always visit every listed row.  A stop that raises something other than a dependency
  error, in a failure procedure called by an exception handler or in the cleanups, ends the loop for good,
  and nothing else does (`JobEvidence.LoopEndsExactlyAtStops`, with an example in
  `JobRuns.ASweepMayEndTheLoop`); the rows listed behind that job are not visited (last clauses of
  `Orchestration.Orchestrator.ReconcileOnce`).  A pass that runs through serves every overdue row.
- A successful row may still count a failed episode; `JobEvidence.StaleFailureCount` says exactly when.
- A session reported failed may later be reported succeeded, exactly when a completed row carries a
  reward by then (`Reporting.FailedTurnsExactlyWhenRewarded`); no other final answer changes.
- Numerals with more than two separators keep commas, 1,234,567,890 becoming 1234,567890
  (`Commas.NumeralsAreStrippedUpToMillions`), although the function is named for properly formatted commas.
- The walk of a report loses an address exactly when all texts that show it under a path of its priority
  lie inside containers met before (`AddressWalk.RecordedIffKept`).  That happens with shared nodes
  (`AddressWalk.SharedNodesMayHideAddresses`, `AddressWalk.FirstPathsCount`), and without them, when a
  temporary dictionary gets the memory address of an earlier one
  (`AddressWalk.ReusedIdentitiesMayHideAddresses`).
- Landing views depend on row order exactly when two different rows that the view could show carry
  the same sort key (`LandingTies.ViewIgnoresOrderIffNoTies`); repeated row ids alone do no harm.
  Session results depend on it exactly when their top rows disagree
  (`Reporting.ResultIgnoresOrderIffTopsAgree`).
- A result target with a colon in it is not mounted by the rewritten mount list (`Mounts.OneResultMount`).
- Making the result directory may make the job directory itself: when results are kept in the shared
  root (for every job), or in the child of it that has the name of the job.  Nothing in the settings
  forbids either.  In the second case the preflight makes that child, so even the first bind reports a
  partial publication, with no failure before (`FileManager.BindAfterPreflight`).  In the first, a failure
  or a death after the result directory is made leaves a job directory without a manifest, and every retry reports a
  partial publication (`FileManager.SharedFiles.Bind`, `FileManager.RetryAfterARefusal`).  In any other
  place this cannot happen.
- Reading the manifest of a published binding is outside the handlers of `bind`: it may raise or die, but a call
  never returns another binding (`BindHistory.FirstPublicationWins`).
- The store allows a running row to become preparing again (`ControlStore.StoreAllowsRunningToPreparing`);
  that it never does is a property of the loop.

## Reading the proofs

A predicate whose body has the form `(A && B) == true` is meant to be handed on whole.  Written as a plain
conjunction, Dafny would take it apart wherever it is a postcondition or a precondition and prove
each part on its own, once for every path.

In `Orchestrator` every await ends in a short section that touches the table, the log or the directory
(`CloseSection`, `WriteSection`, `Perish` and the like).  It says what becomes of the world, and a lemma
about worlds says that this is a step of the machine.

## Assumptions

One loop writes, as docs/PHASE2_DEPLOYMENT.md:103 requires, and the clock does not run backwards.  Job
ids are new when jobs are created.  Platform answers, health answers, the address library, the tool
parser, the grading function and the model are parameters about which nothing is assumed, except where a
theorem says so (`JobTheorems.NothingLeaks`, `JobKeyed.Keyed`).

## Model

| member | source | states |
|---|---|---|
| `JobTheorems.LeaksAreExactlyOrphans` | src/server/infrastructure/real/orchestrator.py:586-635 | In every run, once a job is closed, or finished with rjobs not kept, and its cleanup flag is down, the platform jobs still alive are exactly those whose id never reached the row. |
| `JobTheorems.OrphansByPosition` | src/server/infrastructure/real/orchestrator.py:398-405 | What "never reached the row" means on the list of operations: created at some position, and neither recorded nor stopped at any later one; an if-and-only-if. |
| `JobTheorems.NothingLeaks` | src/server/infrastructure/real/orchestrator.py:506-527 | If no raising create takes effect and no crash falls between a create and the row write, a settled job has no platform job left alive, whatever closes, answers, exceptions and other crashes occur. |
| `JobRuns.CrashBeforeTheRowWriteLeaks` | src/server/infrastructure/real/orchestrator.py:398-405 | The first assumption is needed: a concrete run, for every configuration and id, ends with the job closed, its cleanup done, and its gateway still alive. |
| `JobRuns.RaisingCreateLeaks` | src/server/infrastructure/real/orchestrator.py:398-405 | So is the second: a create that raises after taking effect, followed by a close, leaves the gateway alive. The one precondition, a positive timeout, is enforced by the settings. |
| `JobTheorems.RowsAreConsistent` | src/server/infrastructure/real/orchestrator.py:168-299 | At every moment of every run: controller id iff started_at; controller id implies gateway URL implies gateway id implies binding; each status fixes which ids, phases, cleanup flag and completion time the row may have. |
| `JobTheorems.RunKeepsAll` | src/server/infrastructure/real/control_store.py:232-268 | Between any two moments of a run, identity, creation time, binding, both rjob ids, gateway URL, started_at and completed_at keep their first value, and the status only moves forward in the lifecycle. |
| `JobInvariant.NextKeepsInv` | src/server/infrastructure/real/orchestrator.py:168-299 | Every await of the coroutine, close, tick, listing and crash keeps the inductive invariant: what each control point knows about the row, the disk, the observations of the turn, the log and the clock. |
| `JobInvariant.StepCoreKeeps` | src/server/infrastructure/real/orchestrator.py:168-299 | The coroutine part of that: each await, whatever the environment answers, lands at a control point whose knowledge holds, writes each write-once column at most once, and never dates a start into the future. |
| `JobTheorems.StatusesFormAPath` | src/server/infrastructure/real/control_store.py:205-210 | The committed statuses of a job are a path of the lifecycle graph that ends at the stored status; running to preparing never happens, although the store alone would allow it. |
| `JobTheorems.EventsAreAnnouncedOnce` | src/server/infrastructure/real/orchestrator.py:623-635 | At most one of job_succeeded, job_failed and job_closed and at most one job_close_requested is ever logged, and the final one names the stored status. |
| `JobTheorems.CloseRace` | src/server/infrastructure/real/orchestrator.py:506-527 | After a close has committed at most one more create is issued, only by a turn already committed to a create call, and in a run that loses no id every live platform job is in the row before any cleanup reads it. |
| `JobCleanup.ControllerStopsFirst` | src/server/infrastructure/real/orchestrator.py:608-618 | Whenever a run stands at the stop of the gateway of a job with a recorded controller, a stop of that controller has succeeded after the newest start of a cleanup attempt. |
| `JobCleanup.GatewayStopsAreIssuedAtStopGateway` | src/server/infrastructure/real/orchestrator.py:615-617 | Gateway stops are issued at that one control point and nowhere else, so the previous statement covers them all. |
| `JobCleanup.LastAttemptByPosition` | src/server/infrastructure/real/orchestrator.py:586-635 | The summary of a cleanup attempt that the invariant carries, spelled out by positions in the list of operations. |
| `JobCleanup.ClosedByFirstCleanAttempt` | src/server/infrastructure/real/orchestrator.py:594-635 | A cleanup attempt on a closing job that runs to its end closes the job if and only if none of its stops raised, whether or not finished jobs keep their rjobs. |
| `JobLifetime.TurnsEnd` | src/server/infrastructure/real/orchestrator.py:168-299 | However the environment answers and whatever it raises, a turn returns, or ends the loop, within 56 awaits. |
| `JobLifetime.LateTurnsMoveOn` | src/server/infrastructure/real/orchestrator.py:129-142 | A full turn that starts after the gateway deadline ends with the job out of the active states or with a controller recorded, on every exception path. |
| `JobLifetime.OverdueTurnsFinish` | src/server/infrastructure/real/orchestrator.py:745-750 | A full turn that starts after the controller deadline ends with the job out of the active states. |
| `JobLifetime.NoJobStaysActive` | src/server/infrastructure/real/orchestrator.py:168-299 | Two such turns of one job, taken whole, are enough in any run: whatever happens before, between, in and after them, the job is not active at the end. That passes give these turns is proved below, in PassTheorems. |
| `JobReasons.FailuresAreTrue` | src/server/infrastructure/real/orchestrator.py:561-584 | In every run a failed row names a reason its own columns bear out: a deadline named there had passed when the job failed, a platform state named there was stored, a lost gateway implies a recorded controller, and so on. |
| `JobEvidence.SuccessIsJustified` | src/server/infrastructure/real/orchestrator.py:268-291 | A job is successful only because of a turn that saw its gateway running, ready, routable and healthy at exactly the stored URL and its controller succeeded; a non-empty summary makes the stored total, succeeded and collected counts equal the total of the binding. |
| `JobEvidence.StaleFailureCount` | src/server/infrastructure/real/orchestrator.py:543-559 | The stored failed count of a successful job is zero if and only if the last summary names it or the row said zero before. |
| `JobRuns.SuccessMayRecordAFailure` | src/server/infrastructure/real/orchestrator.py:543-559 | A concrete run in which a job succeeds while its row still says one episode failed. |
| `JobEvidence.InternalErrorsComeFromOutside` | src/server/infrastructure/real/orchestrator.py:148-154 | The coroutine raises an unexpected error, or dies of one, if and only if the environment raised one at that very await: the terminal guard of the store and the missing-URL check are never met. |
| `JobEvidence.LoopEndsExactlyAtStops` | src/server/infrastructure/real/orchestrator.py:117-157 | In every run, an exception has ended the loop in the visit of this job if and only if one of its stops, issued by the failure procedure of an exception handler or by the cleanup half of a pass, raised something other than a dependency error, and the process has not been started anew since. |
| `JobRuns.ASweepMayEndTheLoop` | src/server/infrastructure/real/orchestrator.py:156-157 | Such runs exist, for every configuration and id: a close, a cleanup, and an unforeseen exception of the gateway stop. |
| `JobEvidence.RecheckIsDead` | src/server/infrastructure/real/orchestrator.py:269-272 | The gateway re-check after controller submission never fails, because the same snapshot has passed the route check. |
| `JobVerdicts.ObservationsDecide` | src/server/infrastructure/real/orchestrator.py:199-299 | What a full turn of an active job sees decides it. Its gateway failed, cancelled or succeeded, out of reach under a recorded controller, or at another URL than the stored one; its controller failed, cancelled, or succeeded with incomplete results: the job ends inactive, and without a close request in that turn failed for exactly that reason. A controller that succeeded with complete results: successful. Told by the observations and the row alone. |
| `JobVerdicts.TurnsFollowTheirVerdict` | src/server/infrastructure/real/orchestrator.py:168-299 | And the other way round: a turn of an active job that runs to its end, however its awaits raise, fails it for a reason, a timeout, a binding error, a dependency or an internal error included, or completes it, only if the last thing it saw calls for just that, and always if it does and no close request comes between. |
| `JobVerdicts.VerdictsAreCarriedOut` | src/server/infrastructure/real/orchestrator.py:168-299 | No verdict is forgotten in any run, crashes and later turns included: between turns a decisive verdict of the last observations is in the row, unless the job is being closed. |
| `JobVerdicts.DeadlinesDecide` | src/server/infrastructure/real/orchestrator.py:206-238 | A full turn that begins after a deadline and still waits for a route, for health or for the end of the controller fails the job for exactly the deadline of what it waits for; the deadlines are written out. |
| `JobVerdicts.ObservationsAreStored` | src/server/infrastructure/real/orchestrator.py:531-559 | Between turns the row holds the states last seen of gateway and controller, and every count the last report names. |
| `JobEvidence.TotalsAreBoundOrReported` | src/server/infrastructure/real/orchestrator.py:318-324 | In every run a bound job counts the episodes of its binding, or a total that some controller report of the run has named. |
| `JobColumns.PhasesTellProgress` | src/server/infrastructure/real/orchestrator.py:168-299 | At every moment of every run the phase tells which columns of an active job are filled, and whether a finished one is being cleaned up. |
| `JobColumns.AttemptsCountTurns` | src/server/infrastructure/real/orchestrator.py:169-173 | In every run the attempts of a job count the turns that reached their first write. |
| `JobColumns.NextColumns` | src/server/infrastructure/real/orchestrator.py:168-299 | Each input keeps that, and dates what it writes: the end of a job and the readiness of its gateway get the time of that very step, to the millisecond. |
| `JobColumns.EndsAreTimed` | src/server/infrastructure/real/orchestrator.py:561-635 | A finished job gives, to the millisecond, the time of the step of the run that ended it. |
| `JobColumns.StartsAreTimed` | src/server/infrastructure/real/orchestrator.py:506-527 | A started job gives, to the millisecond, the time at which a create call for its controller has returned. |
| `JobColumns.CreationIsTimed` | src/server/infrastructure/real/control_store.py:149-158 | And it gives the time of its creation, in every run. |
| `JobLog.EventsMatchOperations` | src/server/infrastructure/real/orchestrator.py:637-659 | Conservation: submissions, deletions and cleanups of a controller in the event log never outnumber the recorded ids, the stops and the cleanups that were done, and in a run without crashes each of these is logged exactly once, or about to be. |
| `JobKeyed.KeysAreDistinct` | src/server/infrastructure/real/orchestrator.py:361-366 | Idempotency keys of different jobs, and of the two roles of one job, are different. |
| `JobKeyed.KeyedLeaks` | src/server/infrastructure/real/orchestrator.py:361-366 | With a platform whose create is keyed, after any crashes anywhere, the platform jobs a settled job leaves alive are exactly those created for a role whose column is still empty, and a recorded id is the only one ever created for its role. |
| `JobKeyed.KeyedGatewayHeals` | src/server/infrastructure/real/orchestrator.py:398-405 | A later turn that reaches the gateway create gets the orphaned id again and writes it to the row in its next step, even when a close has come first. |
| `JobKeyed.KeyedControllerHeals` | src/server/infrastructure/real/orchestrator.py:506-527 | The same for the controller; when a close has come first the fallback write does it one step later. |
| `ControlStore.Store.Add` | src/server/infrastructure/real/control_store.py:149-158 | A new row, or an error and no change for a taken id. |
| `ControlStore.Store.Get` | src/server/infrastructure/real/control_store.py:160-166 | The row, if there is one. |
| `ControlStore.Store.Update` | src/server/infrastructure/real/control_store.py:232-268 | The terminal guard, the closing guard, the suppressed phase while closing, one new version; the table changes at that id only, and only on success. |
| `ControlStore.Store.RequestClose` | src/server/infrastructure/real/control_store.py:189-230 | Moves an active row to closing and says so exactly once; any other row is returned as it is. |
| `ControlStore.Store.AddEvent` | src/server/infrastructure/real/control_store.py:270-292 | Appends one event at the end of the log. |
| `ControlStore.GuardsHoldForever` | src/server/infrastructure/real/control_store.py:244-254 | Over any sequence of updates and closes by any caller: closing leads only to closed, terminal rows keep their status, identity and creation time stay, and an unchanged version means an unchanged row. |
| `ControlStore.UpdatesWriteWhatTheyName` | src/server/infrastructure/real/control_store.py:232-268 | Column by column: an update that passes the guards writes what it names and nothing else, dates the row and counts one version; each guard refuses exactly what it is for. |
| `ControlStore.StoreAllowsRunningToPreparing` | src/server/infrastructure/real/control_store.py:244-254 | The guards alone do not order the active statuses. |
| `ControlStore.CloseHappensOnce` | src/server/infrastructure/real/control_store.py:205-210 | After a close no later close on that row makes a transition, whatever commands lie between. |
| `Platform.HostnamesFitTheWire` | src/server/infrastructure/real/orchestrator.py:706-719 | The 253-character limit is exactly the 255-octet limit of section 2.3.4 of RFC 1035 on the encoded name, and every label is well formed. |
| `Platform.LabelsFitTheWire` | src/server/infrastructure/real/orchestrator.py:711-719 | A label has 1 to 63 characters, no dot, and no hyphen at its ends; every alphanumeric text of that length is one. |
| `Platform.CompleteIffAllCounted` | src/server/infrastructure/real/orchestrator.py:723-738 | A report is complete iff it is empty or, merged into counts of which nothing is known, says that all episodes succeeded and were collected and none failed or runs. |
| `Gateways.RoutesLeadToHosts` | src/server/infrastructure/real/orchestrator.py:697-721 | A gateway has a route iff it runs, is ready, and names a port and a host that is neither this machine nor unspecified and is an address or a proper name; blanks around the address, dots behind it and the case of its letters make no difference. |
| `Gateways.NoRouteWithoutAddress` | src/server/infrastructure/real/orchestrator.py:697-706 | Without an address there is no route. |
| `Platform.ReportsOverwriteWhatTheyName` | src/server/infrastructure/real/orchestrator.py:543-559 | A count that a report names is taken from it, and any other stays as it was. |
| `Gateways.UrlsAreWhole` | src/server/infrastructure/real/orchestrator.py:890-897 | A gateway URL begins with the configured scheme and ends with the port. |
| `Gateways.UrlsTellGateways` | src/server/infrastructure/real/orchestrator.py:890-897 | Equal gateway URLs have equal ports, and addresses that differ in brackets at most. |
| `Orchestration.Orchestrator.Reconcile` | src/server/infrastructure/real/orchestrator.py:168-198 | One turn, as straight-line code over the table and the files: whatever other requests do at its awaits, it performs the steps of the machine, and ends at the control point its return or exception belongs to. |
| `Orchestration.Orchestrator.BindJobFiles` | src/server/infrastructure/real/orchestrator.py:301-330 | Marks the job preparing and binds; a refused update, a binding error, a foreign exception and the death of the process each leave the machine where they should. |
| `Orchestration.Orchestrator.Bind` | src/server/infrastructure/real/orchestrator.py:308-311 | The bind call on the shared directory is one step of the machine, or a crash of it. |
| `Orchestration.Orchestrator.BindingFailed` | src/server/infrastructure/real/orchestrator.py:312-317 | A binding error fails the job, re-reads it, and goes on with what it finds. |
| `Orchestration.Orchestrator.RecordBinding` | src/server/infrastructure/real/orchestrator.py:318-330 | The binding is written and announced; the turn goes on iff the job has not halted. |
| `Orchestration.Orchestrator.RunGateway` | src/server/infrastructure/real/orchestrator.py:184-199 | The re-read before the gateway create. |
| `Orchestration.Orchestrator.SubmitGateway` | src/server/infrastructure/real/orchestrator.py:398-407 | Create, record, announce; the turn goes on with the recorded id. |
| `Orchestration.Orchestrator.WatchGateway` | src/server/infrastructure/real/orchestrator.py:199-200 | Polls the gateway and records its state. |
| `Orchestration.Orchestrator.JudgeGateway` | src/server/infrastructure/real/orchestrator.py:201-213 | Failed gateways, lost routes and the ready timeout, in the order of the source; JobVerdicts says what they lead to. |
| `Orchestration.Orchestrator.Probe` | src/server/infrastructure/real/orchestrator.py:215-242 | Health check and re-read: lost, not yet healthy, moved, or up. |
| `Orchestration.Orchestrator.NotHealthy` | src/server/infrastructure/real/orchestrator.py:231-238 | Records the phase; fails only after the deadline. |
| `Orchestration.Orchestrator.RecordUrl` | src/server/infrastructure/real/orchestrator.py:244-256 | The verified URL is recorded and announced. |
| `Orchestration.Orchestrator.Control` | src/server/infrastructure/real/orchestrator.py:258-268 | The re-read before the controller create. |
| `Orchestration.Orchestrator.SubmitSafactory` | src/server/infrastructure/real/orchestrator.py:506-529 | Create and record; a close that has won during the create call leads to the fallback write. |
| `Orchestration.Orchestrator.RecordWhileClosing` | src/server/infrastructure/real/orchestrator.py:518-527 | The id of a controller created during a close is recorded all the same. |
| `Orchestration.Orchestrator.Supervise` | src/server/infrastructure/real/orchestrator.py:269-275 | The re-check and the poll of the controller. |
| `Orchestration.Orchestrator.JudgeController` | src/server/infrastructure/real/orchestrator.py:275-299 | Success, incomplete results, failure, timeout, or nothing yet, as in the machine; JobVerdicts says that each of these is acted on. |
| `Orchestration.Orchestrator.RecordSuccess` | src/server/infrastructure/real/orchestrator.py:282-292 | The success write and its event. |
| `Orchestration.Orchestrator.Fail` | src/server/infrastructure/real/orchestrator.py:561-584 | Leaves succeeded, closing and closed jobs alone, writes the failure once, then cleans up; a close that comes between is not an error. |
| `Orchestration.Orchestrator.Cleanup` | src/server/infrastructure/real/orchestrator.py:586-635 | Controller first, then gateway, then the cleanup write; a dependency error leaves the rest to a later pass. |
| `Orchestration.Orchestrator.SkipCleanup` | src/server/infrastructure/real/orchestrator.py:593-607 | Kept rjobs: the flag goes down and nothing is stopped. |
| `Orchestration.Orchestrator.FinishCleanup` | src/server/infrastructure/real/orchestrator.py:623-635 | The cleanup write: the flag goes down, and a closing job becomes closed. |
| `Orchestration.Orchestrator.HandleDependencyError` | src/server/infrastructure/real/orchestrator.py:121-142 | Only a job past its deadline is failed. |
| `Orchestration.Orchestrator.Turn` | src/server/infrastructure/real/orchestrator.py:119-154 | The turn inside its three exception handlers; an exception that leaves a handler ends the loop. |
| `Orchestration.Orchestrator.List` | src/server/infrastructure/real/control_store.py:168-187 | A listing, after whatever other requests did at its await: the rows are exactly those active, or flagged, in the table of that moment, each once; every one of them waits for its visit, and all jobs have gone on from where they were. |
| `Orchestration.Orchestrator.TakeTurn` | src/server/infrastructure/real/orchestrator.py:119-154 | The turn of the next listed row either returns, and then this row, and no other, has been visited from its first await to its return without interruption; or the process died, at an await or in a file operation; or an exception left a handler, and the job and the rows behind it are where that leaves them. |
| `Orchestration.Orchestrator.Sweep` | src/server/infrastructure/real/orchestrator.py:156-157 | The same for the cleanup of the next flagged row. |
| `Orchestration.Orchestrator.TurnPass` | src/server/infrastructure/real/orchestrator.py:118-154 | The first loop of a pass: the listed rows are visited in order, and when it runs through, all of them have been; when an exception ends the loop, it says in whose visit, and the rows behind that one still wait. |
| `Orchestration.Orchestrator.SweepPass` | src/server/infrastructure/real/orchestrator.py:156-157 | The second loop of a pass, in the same way. |
| `Orchestration.Orchestrator.ReconcileOnce` | src/server/infrastructure/real/orchestrator.py:117-157 | A pass: turns for exactly the rows listed as active, then cleanups for exactly the rows flagged after that. Through, it has served every row overdue when it started. It is ended by an exception iff some machine stands escaped, namely that of the row it names, and the rows behind that one are not visited. It dies only if some await or some file operation kills the process, and then nothing is under way any more. |
| `Orchestration.Orchestrator.Serve` | src/server/infrastructure/real/orchestrator.py:159-166 | Any number of passes, with a restart after each death or ended loop: exactly so many passes happen, each starts where the one before it and a restart left the jobs, and each is a pass as above. |
| `Orchestration.Orchestrator.Suspend` | src/server/infrastructure/real/orchestrator.py:101-166 | While the loop is suspended, at any await, any number of other requests run and time passes, each job doing no more than its machine does for them, unless the process dies, which is a crash of every machine. |
| `Orchestration.Orchestrator.Die` | src/server/infrastructure/real/orchestrator.py:104-115 | The death of the process: turns, queue and close handlers are gone, and what is durable stays as it was. |
| `Orchestration.Orchestrator.Restart` | src/server/infrastructure/real/orchestrator.py:104-107 | A new process starts from the durable state alone, at rest, and every job goes on from where it was. |
| `Orchestration.Orchestrator.Select` | src/server/infrastructure/real/control_store.py:168-187 | The query of a listing returns exactly the rows it selects, active or flagged, each once. |
| `PassTheorems.PassesServe` | src/server/infrastructure/real/orchestrator.py:117-157 | A pass that runs through: a row past its gateway deadline when the pass starts is inactive or has a controller when it ends, and a row past its controller deadline is inactive, whatever the platform answers or raises and whatever other requests do. |
| `PassTheorems.ListedRowsAreServed` | src/server/infrastructure/real/orchestrator.py:118-154 | The same from the moment of the listing to the end of the first half of a pass. |
| `PassTheorems.NoJobOutlivesTwoPasses` | src/server/infrastructure/real/orchestrator.py:117-166 | No job outlives two passes in any history of passes and restarts: one through after its gateway deadline and a later one through after its controller deadline, if it has a controller by then, leave it inactive for good. |
| `PassTheorems.SweepsClose` | src/server/infrastructure/real/orchestrator.py:156-157 | A cleanup visit of a pass closes a closing job iff none of its stops raised. |
| `PassTheorems.LegsAreRuns` | src/server/infrastructure/real/orchestrator.py:117-157 | What the loop has noted along the way are stretches of runs: from before the listing over the listing, the first await and the return of the visit to the end. |
| `PassTheorems.TablesAreServed` | src/server/infrastructure/real/orchestrator.py:117-157 | The statement of PassesServe read off the job table and the clock. |
| `Orchestration.Orchestrator.Close` | src/server/infrastructure/real/runtime_repository.py:110-122 | A close request between two awaits is the close input of the machine, for that job and no other. |
| `Orchestration.Orchestrator.Submit` | src/server/infrastructure/real/runtime_repository.py:79-109 | A new job between two awaits is a machine in its first state. |
| `OwnMoves.UpdateRuleHolds` | src/server/infrastructure/real/orchestrator.py:169-635 | Every write of the loop: if the step of the machine is the change it makes to the row, with the way it goes on, then in every world that agrees with the machine, for every row, clock and interleaving, the write leads to an agreeing world with the coroutine at its next control point. Each of the fourteen writes is an instance. |
| `OwnMoves.ReadRuleHolds` | src/server/infrastructure/real/orchestrator.py:129-593 | The same for every read of a row. |
| `OwnMoves.CallRuleHolds` | src/server/infrastructure/real/orchestrator.py:199-617 | The same for every call of the platform, whatever it answers or raises. |
| `OwnMoves.CrashAgrees` | src/server/infrastructure/real/orchestrator.py:101-107 | After a crash every machine is idle and agrees with the durable state. |
| `OwnMoves.ListingAgrees` | src/server/infrastructure/real/orchestrator.py:118-118 | A listing marks exactly the selected jobs with the rows it read. |
| `ServiceTheorems.EveryJobIsARun` | src/server/infrastructure/real/orchestrator.py:117-157 | Every job of a world the loop keeps has made a run of the machine from its first state. |
| `ServiceTheorems.TableIsConsistent` | src/server/infrastructure/real/control_store.py:20-56 | So every row of the table is consistent. |
| `ServiceTheorems.LogTellsTheTable` | src/server/infrastructure/real/orchestrator.py:637-659 | So the event log of the table announces the end of a job at most once, and truly. |
| `ServiceTheorems.TableFailuresAreTrue` | src/server/infrastructure/real/orchestrator.py:561-584 | So a failed row of the table names a reason its columns bear out. |
| `ServiceTheorems.TableLeaksOnlyOrphans` | src/server/infrastructure/real/orchestrator.py:586-635 | So the live platform jobs of a settled row are exactly those whose id never reached it. |
| `Landing.TrajectoryRows` | src/server/infrastructure/real/data_platform.py:375-384 | The loop over the rows computes the view, which holds each step once, sorted; no other trajectory row of the step has a greater step number, was created later by the first difference of the creation texts, or, created with it, has a later id. |
| `Landing.ViewIsFaithful` | src/server/infrastructure/real/data_platform.py:375-384 | The view represents the rows: drawn from trajectory rows, once per step, no row of a step newer than its entry; and it is sorted. |
| `Landing.KeysAreOrdered` | src/server/infrastructure/real/data_platform.py:344-354 | Sort keys are totally ordered up to equality of all three parts. |
| `Landing.KeysTellAge` | src/server/infrastructure/real/data_platform.py:344-354 | What the order of keys means: the step number first, then the first character in which the creation texts differ, then the same for the ids. |
| `Text.BeforeIsFirstDifference` | src/server/infrastructure/real/data_platform.py:344-354 | Texts compare by the first character in which they differ, a proper prefix first. |
| `Landing.StepsAreListedInOrder` | src/server/infrastructure/real/data_platform.py:375-384 | Steps stored as integers or as their decimal texts are listed in the order of the integers. |
| `Landing.ListedIffWorked` | src/server/infrastructure/real/data_platform.py:356-373 | A step is listed iff some row of it shows work: not a closing or summary row nor a synthetic stop, and a model call that did not fail, or other content. |
| `LandingViews.GetSteps` | src/server/infrastructure/real/data_platform.py:158-170 | The step index: numbered from one, sealed iff some row is completed or terminal or ends the session by its kind; nothing for a session without rows. |
| `LandingViews.GetTrajectory` | src/server/infrastructure/real/data_platform.py:200-219 | The first row of the view with that step id, under its number: what it shows is the body of a row of that step than which no trajectory row of the step is newer, by step number, creation text and id; and it finds nothing only where no row of the step shows work. |
| `LandingViews.IndexAndLookupAgree` | src/server/infrastructure/real/data_platform.py:158-219 | Listed ids are distinct and numbered from one; the lookup of a listed id returns a newest row of that step under exactly that number, or fails on its unreadable time; no other id is found; and an id is listed iff some trajectory row carries it. |
| `LandingTies.ViewIgnoresOrderIffNoTies` | src/server/infrastructure/real/data_platform.py:375-384 | The view does not depend on the order and repetition of rows if and only if no two different rows, each with none newer of its step, carry the same sort key. |
| `LandingTies.ViewIgnoresOrder` | src/server/infrastructure/real/data_platform.py:375-384 | In particular, with distinct row ids it never does. |
| `LandingOrder.TiedRowsDependOnOrder` | src/server/infrastructure/real/data_platform.py:382-384 | An example of a tie: two rows of one key, and the first one wins. |
| `LandingOrder.NumberingIsPrefixStable` | src/server/infrastructure/real/data_platform.py:158-170 | For canonical step ids the old numbered list is a prefix of the new one if and only if every trajectory row repeats a listed step or goes beyond all listed ones. |
| `Reporting.ResultIgnoresOrderIffTopsAgree` | src/server/infrastructure/real/data_platform.py:94-131 | The session result does not depend on order and repetition of rows if and only if all rows of the greatest key among those that decide (rewarded ones, else completed ones) say the same. |
| `Reporting.ResultIgnoresOrder` | src/server/infrastructure/real/data_platform.py:94-131 | In particular, with distinct row ids it never does. |
| `Reporting.TheNewestRowSpeaks` | src/server/infrastructure/real/data_platform.py:94-131 | A rewarded session takes score and time from a completed row with a reward than which no other such row is newer; one completed without rewards takes its time from a newest completed row; any other session with rows is running. |
| `Reporting.ScoresAreTheNewest` | src/server/infrastructure/real/runtime_repository.py:161-218 | And so does every answer to a client that says succeeded. |
| `Reporting.PayloadsComeFromTheArtifact` | src/server/infrastructure/real/runtime_repository.py:175-215 | The payload of an answer is what was read from the artifact of the only group of the range, for a bound job and a safe session name; where the group has an artifact no answer succeeds without it. |
| `Reporting.OpenSessionsTellTheJob` | src/server/infrastructure/real/runtime_repository.py:358-400 | A session without a completed row is pending, running or failed as its job stands, and the error says why it will not be completed. |
| `Reporting.CompletedSessionsIgnoreTheJob` | src/server/infrastructure/real/runtime_repository.py:358-400 | A session with a completed row is answered the same whatever the status of the job, and without an error. |
| `Reporting.FinalSessionsAreSealed` | src/server/infrastructure/real/data_platform.py:94-170 | A session whose rows give a final result has a sealed step index. |
| `Reporting.SucceededIffRewarded` | src/server/infrastructure/real/runtime_repository.py:358-400 | A successful answer says succeeded if and only if some completed row carries a reward, whatever the status of the job. |
| `Reporting.FailedTurnsExactlyWhenRewarded` | src/server/infrastructure/real/runtime_repository.py:161-218 | Failed is not the last word, and this says exactly when: over any run of the job and any growth of its rows, a session reported failed is later reported succeeded if and only if some completed row carries a reward by then, and failed again otherwise. |
| `Reporting.RetryIffOpen` | src/server/infrastructure/real/runtime_repository.py:216-218 | Clients are asked to come back, after the configured time, iff the answer is pending or running. |
| `Reporting.UnknownIffNoRows` | src/server/infrastructure/real/runtime_repository.py:169-173 | A session is unknown iff it has no row. |
| `Reporting.LandingClimbs` | src/server/infrastructure/real/data_platform.py:94-131 | What the rows alone say only climbs, running, failed, succeeded, when rows are added. |
| `Reporting.AnswersClimb` | src/server/infrastructure/real/runtime_repository.py:358-400 | Merged with a job status that moved on, successful answers still only climb. |
| `Reporting.ReportsNeverRetreat` | src/server/infrastructure/real/runtime_repository.py:161-218 | Over any run of the job and any growth of its rows, two successful answers never go back: not from running to pending, not from final to open, not from succeeded to failed. |
| `Reporting.FailureMayTurnIntoSuccess` | src/server/infrastructure/real/runtime_repository.py:358-400 | An example: a rewarded row that arrives late. |
| `Reporting.Repository.CreateJob` | src/server/infrastructure/real/runtime_repository.py:79-109 | A job starts in the first state of the machine, is announced once, and wakes the loop; on an error nothing changes. |
| `Reporting.Repository.CloseJob` | src/server/infrastructure/real/runtime_repository.py:110-139 | The first close of an active job moves and announces it, any other changes nothing; a closing job wakes the loop and asks the client to come back. |
| `Mounts.Rewrite` | src/server/infrastructure/real/file_manager.py:242-249 | The loop that drops the old result mounts and appends the own one computes the specified list. |
| `Mounts.OneResultMount` | src/server/infrastructure/real/file_manager.py:407-413 | The rewritten list mounts the result target exactly once, from the own source, if and only if the target has no colon; all other mounts stay, in order. |
| `Mounts.MountedBehind` | src/server/infrastructure/real/file_manager.py:407-413 | A source and a target joined by a colon mount that target iff the target has no colon. |
| `FileManager.SafeNamesStayInPlace` | src/server/infrastructure/real/file_manager.py:128-130 | Safe names are names of single directory entries, at most 128 characters long, that neither hide nor climb; alphanumeric texts of that length are safe. |
| `FileManager.ByName` | src/server/infrastructure/real/file_manager.py:172-181 | The dictionary of environments exists iff every entry is an object with a safe name of its own, and it maps each name to its environment. |
| `FileManager.SharedFiles.CheckRange` | src/server/infrastructure/real/file_manager.py:162-191 | The checks before any file is written: names match the groups and there is exactly one group. |
| `FileManager.SharedFiles.CheckGroup` | src/server/infrastructure/real/file_manager.py:213-234 | The checks on image, number, parameters, dataset and start file. |
| `FileManager.SharedFiles.Render` | src/server/infrastructure/real/file_manager.py:159-305 | Whatever operation fails or kills the process, only the staging directory, and perhaps the results directory, is touched; on success the episode total is records times number, the image is that of the named environment, which has one and has parameters, the start file names that environment, inputs and results lie directly under their roots in directories named as the job, every file the binding lists is there with its checksum, the plain files of the environment are copied, the agent is told the path of the dataset, and the start file mounts the own results. |
| `FileManager.SharedFiles.JobsDoNotShare` | src/server/infrastructure/real/file_manager.py:211-303 | Two published jobs share neither the directory of their inputs nor that of their results. |
| `FileManager.OnlyOwnResultsAreMounted` | src/server/infrastructure/real/file_manager.py:242-252 | In a staged start file nothing but the result directory of the job is mounted at the result target. |
| `Sources.JoinedIsUnder` | src/server/infrastructure/real/file_manager.py:403-405 | A job id is joined to a root by one slash, whatever slashes end the root. |
| `Sources.NamesDoNotShare` | src/server/infrastructure/real/file_manager.py:403-405 | Different names under one root never give the same path. |
| `FileManager.SharedFiles.Publish` | src/server/infrastructure/real/file_manager.py:144-157 | Stage and rename: published bindings stay as they are, or gain exactly this complete one, also when the process dies. |
| `FileManager.SharedFiles.Bind` | src/server/infrastructure/real/file_manager.py:128-157 | Every safe-named directory is always completely published, with its sources under the roots and its result directory made, or was made to hold results alone; the call adopts what is published, or publishes once, or fails or dies at any file operation, reading the manifest included; it reports a partial binding iff the directory of the job is there without a manifest, and such a directory appears exactly when a call makes the result directory at that place and then does not publish. Where no operation fails, it binds iff the range is in order and its directory is not the results root. |
| `FileManager.SharedFiles.Preflight` | src/server/infrastructure/real/file_manager.py:118-126 | Makes the two roots and probes them: published bindings stay, and where results are kept in a child of the shared root that child is there afterwards. |
| `FileManager.BindAfterPreflight` | src/server/infrastructure/real/file_manager.py:118-141 | On a fresh shared root, all operations working, the very first bind of a job reports a partial binding if and only if results are kept in the child of the root that has the name of the job. |
| `FileManager.RetryAfterARefusal` | src/server/infrastructure/real/file_manager.py:136-157 | For a job without a published binding whose range is refused for its group, all operations working, a retry reports a partial binding if and only if results are kept in the shared root itself or in the child of it that has the name of the job. |
| `BindHistory.FirstPublicationWins` | src/server/infrastructure/real/file_manager.py:136-141 | Over any sequence of calls, crashes and template edits: once a call has published for a job and range, every later call returns exactly that binding while the range is available, unless reading the manifest raises or kills the process; never another binding, and never a partial one. |
| `BindHistory.BindingsStay` | src/server/infrastructure/real/file_manager.py:136-141 | A published binding is never changed. |
| `BindHistory.BoundIsPublished` | src/server/infrastructure/real/file_manager.py:151-157 | A binding that was returned has been published, for the range asked for. |
| `BindHistory.BindRefinesMachine` | src/server/infrastructure/real/orchestrator.py:308-324 | Every bind call, dying ones included, is one answer of the environment in the machine: same published value, same next control point. |
| `Boxed.LastBoxedOnlyString` | env/geo3k/math_utils.py:379-404 | The scan with index and depth counter computes the specified text. |
| `Boxed.ExtractIsExact` | env/geo3k/math_utils.py:379-421 | The extracted answer is r if and only if the text is some prefix, its last marker holding the brace-balanced r, and some suffix. |
| `Boxed.BoxedRoundTrip` | env/geo3k/math_utils.py:379-421 | A balanced r in a box is extracted behind any prefix and before any suffix, if neither r nor the suffix holds a marker. |
| `Boxed.MarkerIsLast` | env/geo3k/math_utils.py:380-380 | No marker begins inside such an answer or suffix, or across their seams. |
| `Commas.StripProperlyFormattedCommas` | env/geo3k/math_utils.py:239-247 | The loop to the fixpoint terminates and computes the specified text. |
| `Commas.PassShrinks` | env/geo3k/math_utils.py:239-247 | A pass never lengthens the text, and it changes it, and then shortens it, iff the pattern matches somewhere. |
| `Commas.StrippedIsClean` | env/geo3k/math_utils.py:239-247 | Stripping only deletes commas, leaves no match, and is idempotent. |
| `Commas.NumeralsAreStrippedUpToMillions` | env/geo3k/math_utils.py:239-247 | A correctly grouped numeral loses all its commas if and only if it has at most two of them, and then becomes its digits. |
| `Commas.StuckStays` | env/geo3k/math_utils.py:239-247 | A text in which a comma stands before four digits never loses all its commas. |
| `Splits.JoinOfSplit` | env/geo3k/math_utils.py:31-33 | Cutting at a marker and joining again gives the text back. |
| `Splits.SplitOfJoin` | env/geo3k/math_utils.py:31-33 | Joining marker-free pieces and cutting again gives the pieces back. |
| `Splits.PiecesAreClean` | env/geo3k/math_utils.py:31-33 | No piece holds the marker. |
| `Fracs.FixFracsInPlace` | env/geo3k/math_utils.py:30-59 | The loop computes the specified text, gives up, or raises, as the source does. |
| `Fracs.FixFracsIsIdempotent` | env/geo3k/math_utils.py:30-59 | Wherever it does not raise, fixing twice is fixing once. |
| `Fracs.FixingOnlyAddsBraces` | env/geo3k/math_utils.py:30-59 | A text whose fractions can all be braced keeps its characters other than braces, keeps its number of fractions, and has each of them followed by two brace groups: as they stood, or around its first and its second character. |
| `Fracs.MisfitDecides` | env/geo3k/math_utils.py:37-43 | Where fractions lack arguments the first of them decides: with nothing behind it the function raises, with one character it returns the text as it was. |
| `Fracs.FixSqrtInPlace` | env/geo3k/math_utils.py:84-96 | The loop over roots computes the specified text, or raises. |
| `Fracs.FixSqrtIsIdempotent` | env/geo3k/math_utils.py:84-96 | Wherever it does not raise, fixing roots twice is fixing them once. |
| `Fracs.FixingRootsOnlyAddsBraces` | env/geo3k/math_utils.py:84-96 | Fixing roots raises iff a root has nothing behind it; otherwise the text keeps its characters other than braces and its roots, and each of them is braced as it stood or around exactly one character. |
| `AddressExtraction.Extraction.Add` | src/server/infrastructure/real/rjob.py:550-583 | Records the usable candidates of one text under a trusted path, numbered on, and nothing else. |
| `AddressExtraction.Extraction.Visit` | src/server/infrastructure/real/rjob.py:585-642 | The walk, terminating on every graph, cyclic ones included, does what its specification says to matches and visited identities; a dictionary built during the walk has the identity its memory address happens to give it, possibly that of an earlier one. |
| `AddressWalk.WalkRecordsWhatIsKept` | src/server/infrastructure/real/rjob.py:585-642 | On every graph, shared and cyclic ones included, the walk records exactly the texts of the unfolded graph that do not lie inside a container met before, in their order and under the paths at which they stand there, and marks exactly the containers kept. |
| `AddressWalk.RecordedIffKept` | src/server/infrastructure/real/rjob.py:585-642 | So an address is lost if and only if every text that shows it under a path of that priority lies inside a container that was met before at a place that counted. |
| `AddressWalk.WalkIsSound` | src/server/infrastructure/real/rjob.py:585-642 | Every recorded address stands, usable, in a text that the unfolded graph shows within the depth bound, under a path of its priority. |
| `AddressWalk.WalkIsComplete` | src/server/infrastructure/real/rjob.py:585-642 | Where no identity is met twice, be it of a lasting or of a temporary container, the walk records exactly what the unfolded graph shows, in its order. |
| `AddressWalk.SharedNodesMayHideAddresses` | src/server/infrastructure/real/rjob.py:593-596 | One way to lose an address: its node is first met at the depth bound, although a path of length two leads to it. |
| `AddressWalk.FirstPathsCount` | src/server/infrastructure/real/rjob.py:593-596 | Another: its node is first met under a path of no priority, and passed by under a trusted one. |
| `AddressWalk.ReusedIdentitiesMayHideAddresses` | src/server/infrastructure/real/rjob.py:623-638 | A third, without any sharing: the dictionary of the second of two objects gets the memory address of that of the first. |
| `AddressKinds.ExtractRJobIps` | src/server/infrastructure/real/rjob.py:545-649 | The whole extraction computes the ranked addresses of the walk, whatever identities temporary dictionaries get; told by keys, it lists exactly the usable addresses that the walk reads under a trusted key, each once, and of any two the first stands somewhere under a more trusted key than the second ever does, or is read earlier under an equally trusted one: keys that read as a pod, container, private or ip address first, then ip, then host and node addresses, then address, endpoint and host below a status or a network. |
| `AddressKinds.TrustDecides` | src/server/infrastructure/real/rjob.py:560-649 | The same for the specification; the first result is the earliest usable address of the whole report under the most trusted kind of key that shows one. |
| `AddressKinds.TextsStandAtChains` | src/server/infrastructure/real/rjob.py:585-642 | The unfolded graph shows a text exactly where a chain of at most twelve entries, items, attributes, dumps and public variables leads to it, under the keys met on the way. |
| `AddressKinds.PublicIsNotHidden` | src/server/infrastructure/real/rjob.py:628-633 | Of the variables of an object just those are looked at whose name does not begin with an underscore. |
| `AddressRanking.RankedByBest` | src/server/infrastructure/real/rjob.py:644-649 | The result lists each recorded address once, ordered by its earliest recording of best priority, so the first is the earliest of the greatest priority. |
| `AddressRanking.Rank` | src/server/infrastructure/real/rjob.py:645-649 | The loop that drops repeated addresses computes the specified ranking. |
| `Geo3kRun.RunState.Run` | env/geo3k/runner.py:155-197 | At most max(1, max_turns) model calls; the transcript alternates from the question on; latest answer, tool calls, score and source are those the transcript determines; the counter equals the number of tool calls, at most one a turn. |
| `Geo3kRun.RunState.Round` | env/geo3k/runner.py:167-185 | One round adds one reply and at most one feedback, keeps the fields in step with the transcript, and ends the run when no turn is left. |
| `Geo3kRun.RunState.ProcessAction` | env/geo3k/runner.py:213-237 | A reply is appended and its boxed answer noted; the run is done iff the reply calls no tool. |
| `Geo3kRun.RunState.HandleToolCall` | env/geo3k/runner.py:239-264 | A call is counted iff its tool is supported and it carries an answer; one feedback is appended in every case, and it is the one that fits: unsupported tool, unreadable arguments, missing answer, right, wrong, or wrong with the last-chance warning. |
| `Geo3kRun.RunState.AppendToolFeedback` | env/geo3k/runner.py:266-273 | Feedback repeats the shown images iff configured to. |
| `Geo3kRun.ScoreIsAccepted` | env/geo3k/runner.py:298-308 | The score is one iff there is a ground truth and the answer is graded correct as it stands, or boxed when it is not; otherwise it is zero. |
| `Geo3kRun.WarnedOnTheLastChance` | env/geo3k/runner.py:310-318 | The test for the last-chance warning holds iff at most one model call is left; HandleToolCall gives the warning exactly where the test holds. |
| `Geo3kRun.LatestAgrees` | env/geo3k/runner.py:217-223 | The latest answer of a transcript is the last non-empty boxed answer in it, thinking aside. |
| `Geo3kRun.RunGeo3k` | env/geo3k/runner.py:155-308 | The composed run: every assistant message is what the model replied to the transcript before it; the score is one iff the last non-empty boxed answer exists and is accepted, else zero; a run whose replies box nothing outside their thinking has no answer, score zero and a missing boxed answer; its final answer is the latest boxed one, or what the final reply says outside its thinking; counted calls are of supported tools and scored by the grading function. |
| `Geo3kRun.OneReading` | env/geo3k/runner.py:217-217 | What a reply says outside its thinking, blanks around it aside, is determined by the reply. |
| `Thinking.ThoughtsGo` | env/geo3k/runner.py:217-217 | From a text without an opening tag, a thought and a rest, the thought goes with its tags, the text stays, and the rest is read on. |
| `Thinking.ThinkingIsLeftOut` | env/geo3k/runner.py:217-217 | What is left is r iff r is the text itself, if no closing tag follows an opening one in it, or else what is before its first thought together with what is left of the rest. |
| `Text.StripIsExact` | env/geo3k/runner.py:216-217 | Stripping takes the blanks around a text and nothing else. |

## Left out

- SQL, transactions and failures of the store itself: each store operation is one atomic section that works.
- ControlStore.Store.Update: does not model the UNIQUE columns for rjob ids (src/server/infrastructure/real/control_store.py:108-117); platform ids are taken to differ between jobs.
- Exit codes, failure summaries, gateway address and port columns, event payloads, users and images: they are stored and never read by the protocol.
- Job specifications, launcher commands, environments, resources and platform names cut to 49 characters: straight-line data; the idempotency keys are modelled.
- Configuration errors raised before a create call appear as a create that raises without effect.
- Orchestration.Orchestrator.Select: leaves the order of a listing open, where the source orders by a time column; nothing proved depends on it.
- Orchestration.Orchestrator.Serve: counts passes instead of waiting for a wake-up or a timeout between them, since time may pass at every await anyway; the restart after a death or an ended loop is that of the process manager.
- PassTheorems.NoJobOutlivesTwoPasses: speaks of passes that run through; that passes keep being started is an assumption about the process.
- After the process has died, the rest of a pass is gone through without effect instead of being cut off.
- The machine of one job is a value, and the loop carries one for each job as a ghost map; the table, the log, the clock and the directory are objects the code updates.
- Reporting.Repository.CloseJob: does not model the failure of the database during a close.
- List of sessions, milestones, ownership checks and result artifacts beyond whether one can be read (src/server/infrastructure/real/runtime_repository.py:141-159, 220-291).
- Clients of the older four-method data interface (src/server/infrastructure/real/data_platform.py:132-152, 171-194, 220-250).
- Landing rows are values with their JSON columns already read; a trajectory payload is one text.
- Landing.StepText: a step id that is a float or a boolean is its text together with its integer value, if it has one; infinite floats, for which the conversion raises, are left out.
- FileManager.SharedFiles.Render: nested directories are flat paths, and the copied environment is a list of named files; a runner entry point that is checked in the source is one flag.
- FileManager.SharedFiles.Bind: only bind calls write in the shared root, and staging names are fresh.
- FileManager.SharedFiles.Rename: renaming onto an empty directory replaces it, as it does on POSIX systems.
- Removal of a staging directory is one operation; a partly removed staging directory is no different from a whole one, since neither has a safe name.
- Text: letters and digits are ASCII, and case folding and stripping are those of ASCII text with the Latin-1 spaces; the digit test of the comma pattern is a parameter.
- Commas.Pass: a final line feed counts as a character and not as the end of the text, as it does for a bare end anchor.
- The other rewriting passes of the answer normalisation and the symbolic comparison: they need the semantics of external parsers.
- AddressExtraction.Extraction.Visit: a report is a finite graph that does not change during the walk; attributes whose getters raise other errors than the three the source catches are left out.
- The address pattern and the address library are one parameter, from a text to its candidates.
- Geo3kRun.RunState.Run: the two flags terminated and truncated are constant in the source and are not modelled, nor is the last tool score.
- Routes, schemas, authentication, redaction, the HTTP clients of the platform and the other environments.
