# Model of the headless runtime, its observation and output services, and the store algorithms beside them

The headless runtime is a daemon that owns native child processes. It launches and resumes
them, sends them controls, shuts them down, hands itself over to an update, and records a
clean marker when it leaves nothing behind. One mutex guards its state; many goroutines
interleave between the sections it guards and call ports that may fail, time out, or answer
with an unknown outcome. The process may die at any moment and be started again over the same
journal.

## The runtime

`RuntimeState` holds the state of one daemon and what survives it. `LaunchSteps`,
`ResumeSteps`, `ControlSteps`, `ShutdownSteps` and `LifecycleSteps` give one atomic step for
every lock section and for every port call; which goroutine stands before which step is the
phase stored in its ticket or run. `RuntimeMachine` puts them together with crashes: a run is
any sequence of steps that are enabled one after another, so the theorems speak of every
interleaving, every answer of every port, and every number of restarts. `RuntimeOwner` is the
owner object itself: a class with the program's fields and one method for each section, each
proved to be the step it stands for.

The invariants are in `OwnershipInvariants`, `ControlInvariants` and `LifecycleInvariants`,
the proofs that each step keeps them in the modules whose names end in `Proofs`. `Traces` writes down
every native or durable effect of a run in order; the theorems about whole runs are in
`RuntimeTheorems`, `Finality`, `Receipts`, `Guarantees`, `Deferrals` and `RunPages`:

- effects happen at most once, a native resume even across restarts, and an attempt found in
  the journal is never replayed;
- the counters are exactly the work they stand for, and admission keeps them in bounds;
- a clean marker is only recorded when it is true, although its check is made before the lock
  is released, and afterwards nothing in that daemon starts or controls a child;
- a durable shutdown decision is the only one of its epoch; after an update handoff nothing
  is started, resumed, controlled or closed;
- an answer that was given is never rewritten;
- following the pages of the roster at one unchanged revision visits every run once.

What ports answered is recorded in the tickets and runs, beside the fields of the program:
whether a launch was saved, a resume confirmed, an exit waited for and journaled, an intent
reserved, a terminal closed. `OwnershipOutcomes`, `ControlOutcomes`, `ShutdownOutcomes` and `Outcomes`
prove that in every reachable state each answer is exactly the one those records call for, no
better and no worse, and that the records are true and stay. `Admissions` says exactly when
each request is admitted, each notice due and the daemon clean, `Signals` that no change goes by
without waking its waiters. `Cooperation` and `Departures` are
the other half of safety: when the ports cooperate, a launch, a resume and a control that are
admitted run to their good end, a confirmed shutdown drains, and an idle daemon can hand over
and record its clean marker.

Two things the reader might not expect. A binding is confirmed only while no launch is
pending, so after a committed manual shutdown no child starts either, although the code does
not promise it. And a run that could not be published stays in the roster as uncertain, so
the roster at one revision is stable in its identities, not in its uncertainty flags.

## The other parts

- `ObservationContinuity`, `ObservationGate`, `GateProofs`, `GateTheorems`, `GateAnswers`, `GateOwner`: the gate
  through which actions are taken only while the observed host has not been interrupted. A
  guard passes exactly when every sample since its stamp was continuous and the gate is open; a
  refresh succeeds exactly with a sample begun after it was asked for and after the last loss.
- `ByteLog`, `OutputFanout`, `OutputProgress`, `OutputOwner`: the ring that keeps the end of a child's output and
  its fan-out to subscribers. Whatever the producer and the readers do, the frames of every
  subscriber tile the output from its first cursor on, with the bytes the producer wrote; who
  keeps a subscription is decided by what it has not read, and by nothing else.
- `PreparedStoreUpgrade`, `UpgradeCrashes`: the phases of a prepared upgrade and a model of the
  inodes on disk, with crashes between any effect and its record. The original store is never
  lost, the exchange happens at most once, a crash after the copy is complete is always
  recovered, and a rollback succeeds exactly where it may.
- `SupersessionOrder`, `SupersessionSort`: the order in which memories are imported. The order is
  defined without the algorithm, by repeatedly taking the least free row; the loops over
  degrees and child lists are proved to compute it.
- `Utf8`, `AuditTruncation`: decoding runes forwards and backwards (section 3 of RFC 3629) and
  the truncation of audit payloads.
- `LiteralSearch`: the trigram filter and the two literal searches that must agree.

## Where the code does less than it says

- The documentation of the size marker says that the last marker of a truncated payload wins
  because the program's own marker stands between head and tail
  (`domain/model/command_audit.go:278-281`). That holds for markers in the head. A marker in
  the kept tail comes later and wins over the program's own, and a marker that was itself cut
  names no size. `AuditTruncation.TruncatedSizeReadBack` says exactly when the size is read
  back; `AuditTruncation.ForgedPayloadLosesSize` is a payload whose size is lost.
- Recovery of an upgrade refuses placements from before the copy is complete, among them one
  that its own preparation leaves when it dies right after creating the candidate.
  `UpgradeCrashes.RecoveryIsTotal` says exactly which; `UpgradeCrashes.UndurableCandidateIsRefused`
  is a run that reaches one.

## Model

| member | source | states |
|---|---|---|
| RuntimeProofs.Reachable | application/runtime/launch.go:83-108 | every state that any interleaving of lock sections, port answers and crashes can reach satisfies all invariants of ownership, controls and lifecycle |
| RuntimeProofs.StepKeeps | application/runtime/launch.go:83-108 | each single lock section, port call or crash keeps all of them, from any state that has them |
| RuntimeProofs.RunKeeps | application/runtime/launch.go:83-108 | so does any sequence of steps from any such state |
| RuntimeProofs.CrashKeeps | application/runtime/launch.go:114-119 | a new daemon over what a dead one left behind starts out with all invariants |
| RuntimeTheorems.AtMostOnce | application/runtime/resume.go:99-146 | over a whole run with restarts: one native start per launch request and epoch, one native resume per request across all epochs, one durable intent and one native effect per run and control request, one durable decision per preview, one close per terminal |
| RuntimeTheorems.DurableFirst | application/runtime/control.go:220-299 | every native control effect comes after the committed intent for the same run and request, and every closed terminal after a durable decision of the same epoch |
| RuntimeTheorems.MarkerMeansChecked | application/runtime/lifecycle.go:470-493 | a clean marker is recorded only after the check passed in the same epoch, and the check stays passed |
| RuntimeTheorems.CleanMarkerIsTrue | application/runtime/lifecycle.go:470-493 | at the moment the marker is recorded, whatever happened since the check: every owned child has a wait-confirmed, journaled exit, no launch or resume ended with a possible child, no control is in motion, both ownership counters are 0 and launches are disabled |
| RuntimeTheorems.CleanIsFinal | application/runtime/lifecycle.go:470-493 | after a clean marker no later event of that epoch starts, resumes or controls a child |
| RuntimeTheorems.DecisionIsFinal | application/runtime/lifecycle.go:329-420 | after a durable shutdown decision no later event of that epoch starts or resumes a child or decides anything; after an update handoff none controls a child or closes a terminal either |
| Finality.AfterClean | application/runtime/lifecycle.go:470-493 | from any state in which the clean check has passed, the rest of the epoch leaves children alone |
| Finality.AfterDecision | application/runtime/update.go:75-77 | from any state with a committed decision, the rest of the epoch starts nothing, and does nothing at all to children when the decision was an update handoff |
| Finality.StepIsFinal | application/runtime/lifecycle.go:304-328 | no step but a crash takes back a passed clean check or a committed decision, or changes the purpose of the decision |
| Traces.RunRecords | application/runtime/resume.go:52-60 | the counted history in the state grows by exactly the effects of the run, for every kind of effect |
| Traces.Locate | application/runtime/launch.go:208-293 | every event of a run belongs to one step of it, and splits the events into those before and those after that step |
| Receipts.AnswersAreFinal | application/runtime/launch.go:135-206 | until the next crash an answered launch, resume, control or shutdown decision keeps its answer, and a retry with the same request id finds the same ticket; a starting launch is never forgotten |
| Guarantees.StoredIsNeverResumed | application/runtime/resume.go:163-197 | an attempt left in the journal by an earlier daemon is never resumed natively, by this daemon or a later one |
| Guarantees.OwnershipIsExact | application/runtime/launch.go:152-171 | in every reachable state `pending` is the number of launches and resumes still running or stuck with a possible child, `active` the number of runs without a known exit, their sum at most 256, tickets and resumes at most 1024; no launch is both abandoned and starting; a resumed run is published only if its attempt is confirmed |
| Guarantees.ControlsAreExact | application/runtime/control.go:83-161 | in every reachable state `controlsPending` is the number of busy runs and at most 32, at most one control per run is in flight, a Delivered receipt had a successful effect and was saved, and effects never outnumber durable intents, which are at most one per request |
| Guarantees.ControlsAreAdmittedSafely | application/runtime/control.go:111-143 | a control is admitted only for a live run that is not busy and not while a decision is prepared; after a decision or doubt only to stop; input only for a published and certain run, and for a resumed run only with its attempt confirmed |
| Guarantees.DecisionsAreExact | application/runtime/lifecycle.go:304-420 | in every reachable state at most one lifecycle coordinator and one committed decision; a draining receipt closed as many terminals as its binding counted runs; a committed decision has no pending launch, and a committed handoff no child and no control |
| Guarantees.IdleMeansJoined | application/runtime/launch.go:431-446 | the daemon is idle if and only if every child was joined with a known exit, no reservation may hide a child, and every control, decision and update has settled |
| Deferrals.DeferralStep | application/runtime/update.go:231-239 | a cached deferral keeps its start and its notice through every step, unless this very step is a successful handoff for its own target, which retires it |
| Deferrals.DeferralIsContinuous | application/runtime/update.go:151-209 | the same over any number of steps: while it lasts the deferral is the continuous one, and once it is gone it stays gone and the daemon stays disabled |
| Deferrals.OfferIsConfirmable | application/runtime/update.go:142-146 | the empty preview offered to an update is confirmable as a handoff right away: nothing that its construction skips could have refused it |
| RunPages.SameRevisionSameIds | application/runtime/launch.go:419-428 | below revision exhaustion two states of one epoch with the same revision list the same run identities |
| RunPages.PageExactly | application/runtime/launch.go:449-468 | a page is given exactly to a request of this epoch, at this revision if it names one, that begins, or names a revision and a listed identity to go on from |
| RunPages.WalkPage | application/runtime/launch.go:449-476 | each page requested by the fields of the one before it holds the next identities of the sorted roster, and its own epoch, revision and cursor request the page after it, or end the walk |
| RunPages.WalkSeesRoster | application/runtime/launch.go:449-476 | a client that begins without a cursor and follows what each page says, with any steps of the daemon in between, sees exactly the identities of the roster it began with, each once and in increasing order |
| RunPages.IncreasingUnique | application/runtime/launch.go:365-395 | a set of identities has one increasing listing |
| ControlProofs.PendingIsBusyRuns | application/runtime/control.go:202-214 | when every ticket in flight makes its run busy and no run has two, the coordinator count is the number of busy runs |
| ControlProofs.ReserveKeepsCapacity | domain/runtime/control.go:167-183 | reserving keeps the ledger within 1024 receipts with 16 kept for stops, and its counter exact |
| ControlProofs.RecordKeepsCapacity | domain/runtime/control.go:193-219 | so does recording an outcome |
| ControlProofs.AbandonKeepsCapacity | domain/runtime/control.go:220-233 | so does abandoning an uncommitted intent, whichever its kind |
| ControlProofs.ControlKeeps | application/runtime/control.go:83-348 | every step of a control keeps the control invariants: ledger, ticket, busy flag, counter and history stay in agreement |
| LaunchProofs.LaunchKeeps | application/runtime/launch.go:208-357 | every step of a launch or of reconciliation keeps the ownership invariants |
| LaunchProofs.AdmitConserves | application/runtime/launch.go:146-171 | admission keeps the counters exact and within their bounds |
| LaunchProofs.TransferMoves | application/runtime/launch.go:269-281 | transferring a child moves exactly one unit from `pending` to `active` and fits the ticket to its run |
| LaunchProofs.FailMoves | application/runtime/launch.go:294-324 | a failure keeps the accounting exact: the reservation is returned exactly when no child may exist, and the request forgotten only when it was abandoned before starting |
| ResumeProofs.ResumeKeeps | application/runtime/resume.go:85-450 | every step of a resume keeps the ownership invariants, with the journal and its creators |
| ResumeProofs.EndMoves | application/runtime/resume.go:152-162 | completing a resume without a transferred child keeps the accounting exactly when the reservation is kept for a possible child |
| ResumeProofs.SettleMoves | application/runtime/resume.go:360-386 | publishing a resumed run keeps the invariants: it is published only when its confirmation is durable |
| RosterProofs.RosterInjective | application/runtime/launch.go:365-395 | the roster has one row for each run identity, though it merges runs, launches and resumes |
| RosterProofs.EmptyBindingMeansNoWork | application/runtime/update.go:67-70 | an empty binding of the current state means that no owned run is unreconciled |
| FrozenProofs.QuietLaunch | application/runtime/launch.go:559-561 | with admission closed and nothing pending no launch step makes anything pending, and with nothing active none touches a run |
| FrozenProofs.QuietResume | application/runtime/resume.go:152-162 | the same for resumes |
| FrozenProofs.NoControlStep | application/runtime/control.go:129-132 | with no control pending, and a decision prepared or nothing active, no control step is enabled |
| ShutdownProofs.ShutdownKeeps | application/runtime/lifecycle.go:119-420 | every step of a shutdown keeps the lifecycle invariants |
| ShutdownProofs.ConfirmAdmitted | application/runtime/lifecycle.go:183-252 | an admitted confirmation finds nothing pending, no coordinator, no decision and a preview that is the current roster, all of it owned; a handoff finds no work at all |
| LifecycleProofs.PassedIsClean | application/runtime/lifecycle.go:470-493 | if the clean check passes, every run was waited for and journaled and nothing is uncertain |
| LifecycleProofs.LifecycleKeeps | application/runtime/update.go:151-285 | every step of deferral, start-up and clean publication keeps the lifecycle invariants |
| Outcomes.OutcomesAreExact | application/runtime/resume.go:177-387 | in every reachable state each launch, resume, control, decision and owned run shows exactly what the recorded answers of its ports amount to |
| Outcomes.LaunchConcludes | application/runtime/launch.go:254-292 | a finished launch has no error if and only if its child started under a real process id and was saved; its run is published and certain exactly then, until a failed wait or an unsaved exit |
| Outcomes.ResumeConcludes | application/runtime/resume.go:163-197 | a completed resume has no error if and only if its own child was confirmed or a confirmed attempt for the same selection was found, and then a confirmed attempt is durable; a stored attempt answers no error, rejected, unknown or changed by its phase and selection alone; a resumed run is published exactly with the confirmation |
| Outcomes.ControlConcludes | application/runtime/control.go:279-348 | a finished control that is remembered is Delivered, or Rejected, if and only if the effect said so without error and with a credible byte count and the evidence was saved, and has no error exactly when Delivered; one that was dropped had definitely no durable intent and no effect |
| Outcomes.DecisionConcludes | application/runtime/lifecycle.go:376-420 | a settled committed decision is Draining, without error, if and only if every terminal of its roster closed and the outcome was saved; it counts the closes that succeeded |
| Outcomes.AnswersAreRecorded | application/runtime/control.go:279-291 | each answer of a port is recorded as it was given, in the step that brings it |
| Outcomes.RecordsStay | application/runtime/launch.go:208-293 | and until the next crash no step rewrites it |
| OwnershipOutcomes.WaitAnswers | application/runtime/launch.go:325-340 | a successful wait on a live run makes it exited and keeps it certain; any other leaves it uncertain and unpublished |
| OwnershipOutcomes.ReconcileAnswers | application/runtime/launch.go:341-357 | a run stays certain only if its exit is known and saved |
| OwnershipOutcomes.EndingAnswers | application/runtime/resume.go:388-403 | every ending of a resume without an owned child: its answer, and its reservation back unless a child may exist |
| OwnershipOutcomes.JoinThenLeave | application/runtime/launch.go:171-200 | a waiter that joins and leaves changes nothing |
| ShutdownOutcomes.SettlingIsExact | application/runtime/lifecycle.go:399-420 | settling adds doubt exactly when a close or the save failed, and retires the deferral exactly when a handoff drained |
| Admissions.LaunchAdmittedExactly | application/runtime/launch.go:140-171 | when a launch is admitted, joined or in conflict, each if and only if |
| Admissions.ResumeAdmittedExactly | application/runtime/resume.go:89-119 | when a resume is, each if and only if |
| Admissions.ControlAdmittedExactly | application/runtime/control.go:90-143 | when a control is admitted or finds its own ticket, each if and only if |
| Admissions.ConfirmationAdmittedExactly | application/runtime/lifecycle.go:176-252 | when a confirmation is admitted, if and only if; without the acknowledgement it never is |
| Admissions.ConfirmedAwaits | application/runtime/lifecycle.go:256-262 | a confirmation reserves the revision right after its own change |
| Admissions.SecondLookIsExact | application/runtime/lifecycle.go:357-363 | whatever happened since the confirmation, the decision goes on if and only if the revision is still the reserved one and nothing is in doubt, and then the roster has the same identities |
| Admissions.AttemptAnsweredExactly | application/runtime/update.go:165-199 | when an update attempt is offered an empty preview, deferred or refused |
| Admissions.NoticeIsDue | application/runtime/update.go:253-276 | a notice is published if and only if a day has passed since the deferral began, it was not announced, and the metadata may change |
| Admissions.NoticeIsOnce | application/runtime/update.go:259-262 | an announced deferral is never announced again, whatever happens in the epoch |
| Admissions.CleanExactly | application/runtime/lifecycle.go:470-485 | the clean check passes if and only if nothing is left and nothing is in doubt |
| Admissions.DoubtExactly | application/runtime/lifecycle.go:283-303 | the daemon is in doubt if and only if its metadata is, an owned run is uncertain, or a launch may have left a child |
| RosterProofs.RosterIsExact | application/runtime/launch.go:365-395 | the roster shows exactly the owned runs and the launches and resumes that are committed to start and may own a child |
| RosterProofs.BindingIsQuiet | application/runtime/lifecycle.go:81-116 | the counts of a binding are zero if and only if no launch, resume or reconciliation is in motion |
| Signals.RevisionExactly | application/runtime/launch.go:419-428 | a change moves the revision by one, and at the last one closes the daemon for good |
| Signals.NoSilentChange | application/runtime/launch.go:419-428 | a step that leaves the revision where it was finished, admitted, transferred and decided nothing |
| Signals.IdleIsSignalled | application/runtime/launch.go:431-446 | the step that makes the daemon idle moves the revision, so whoever waits for it is woken |
| Cooperation.LaunchSucceeds | application/runtime/launch.go:135-293 | from any state with room, a launch whose ports cooperate runs through all its sections to a published live run without error |
| Cooperation.ResumeSucceeds | application/runtime/resume.go:85-387 | so does a resume without a stored attempt, with its confirmation durable |
| Cooperation.ControlSucceeds | application/runtime/control.go:83-348 | so does a control: delivered, without error, in the ledger, and its run free again |
| Cooperation.LastWaiterAbandons | application/runtime/launch.go:186-200 | the last cancelled waiter of a launch that is not starting ends it without a trace of its request; any other leaves the launch as it was |
| Cooperation.LastWaiterCancels | application/runtime/resume.go:131-142 | the last cancelled waiter of a resume that is not starting keeps it from committing |
| Cooperation.FreshDaemonBinds | application/runtime/lifecycle.go:499-535 | a fresh daemon is bound and open exactly when its epoch was recorded |
| Cooperation.AttemptDefers | application/runtime/update.go:185-209 | a saved attempt leaves the deferral for its target with the start of the continuous one; an unsaved one leaves the old |
| Cooperation.NoticePublishes | application/runtime/update.go:271-285 | a due notice that is saved marks the deferral and changes nothing else |
| Departures.PreviewExactly | application/runtime/lifecycle.go:119-164 | when a preview is given and when it is dropped, each if and only if |
| Departures.PreviewedIsConfirmable | application/runtime/lifecycle.go:135-252 | a preview drawn up with nothing in motion or in doubt can be confirmed as long as nothing changes: no row of it lacks an owner |
| Departures.QuiescentExactly | application/runtime/update.go:79-112 | a daemon is quiescent if and only if all it owns is at rest, no coordinator runs, nothing is in doubt, and it is neither closed nor exhausted |
| Departures.ShutdownDrains | application/runtime/lifecycle.go:172-420 | a confirmable decision whose journal and terminals cooperate drains: every terminal closed and counted, no new doubt, a handoff retires its deferral |
| Departures.IdleDaemonLeaves | application/runtime/update.go:75-77 | a quiescent daemon can always go: offered an empty preview, handed over for the target, and its clean marker recorded |
| RuntimeOwner.Runtime.constructor | application/runtime/launch.go:114-119 | one lock section: a new daemon has empty fields and the journal of the earlier ones |
| RuntimeOwner.Runtime.AdmissionIsClosed | application/runtime/launch.go:559-561 | one lock section: admission is closed by any of the four flags |
| RuntimeOwner.Runtime.CheckLaunch | application/runtime/launch.go:135-151 | one lock section: the answer to a launch request: refused, joined to the ticket of an equal request, or admitted |
| RuntimeOwner.Runtime.Launch | application/runtime/launch.go:146-171 | one lock section: carries the answer out: an admission adds one ticket and one reservation, a join one waiter, a refusal nothing |
| RuntimeOwner.Runtime.LeaveLaunch | application/runtime/launch.go:172-206 | one lock section: a leaving waiter abandons the launch only when it is the last, before starting and before completion |
| RuntimeOwner.Runtime.CommitLaunch | application/runtime/launch.go:238-250 | one lock section: starting is committed exactly when the launch is not abandoned, with its identity drawn |
| RuntimeOwner.Runtime.TransferLaunch | application/runtime/launch.go:269-281 | one lock section: the returned child becomes an owned run, its reservation one active unit |
| RuntimeOwner.Runtime.PublishLaunch | application/runtime/launch.go:277-292 | one lock section: the run is published and the ticket without new error exactly when started and saved; else uncertain and unknown; the ticket completes either way |
| RuntimeOwner.Runtime.FailLaunch | application/runtime/launch.go:294-324 | one lock section: what a failure does to ticket, index and reservation in each of its branches |
| RuntimeOwner.Runtime.FinishUncertainLaunch | application/runtime/launch.go:312-323 | one lock section: a launch that may have a child completes with its reservation kept |
| RuntimeOwner.Runtime.ObserveWait | application/runtime/launch.go:325-340 | one lock section: an exit is known only if the wait succeeded on a live run |
| RuntimeOwner.Runtime.FinishReconcile | application/runtime/launch.go:341-357 | one lock section: the active unit is given back only for a known exit; an unsaved exit leaves the run uncertain |
| RuntimeOwner.Runtime.CheckResume | application/runtime/resume.go:89-112 | one lock section: the answer to a resume request |
| RuntimeOwner.Runtime.Resume | application/runtime/resume.go:99-124 | one lock section: carries it out on tickets and reservation |
| RuntimeOwner.Runtime.LeaveResume | application/runtime/resume.go:125-146 | one lock section: a leaving waiter cancels the resume only when it is the last |
| RuntimeOwner.Runtime.CompleteResume | application/runtime/resume.go:152-162 | one lock section: completes a ticket and returns its reservation unless a child was attached or may exist |
| RuntimeOwner.Runtime.AnswerStored | application/runtime/resume.go:163-197 | one lock section: answers from the stored attempt: no error exactly for a confirmed one, rejected exactly for one that failed before its start, a conflict exactly when it is for another selection |
| RuntimeOwner.Runtime.CommitResume | application/runtime/resume.go:275-290 | one lock section: commits to starting exactly when neither cancelled nor closed to admission |
| RuntimeOwner.Runtime.AttemptCreated | application/runtime/resume.go:291-313 | one lock section: this operation owns the new attempt |
| RuntimeOwner.Runtime.TransferResume | application/runtime/resume.go:341-349 | one lock section: the resumed child becomes an owned run |
| RuntimeOwner.Runtime.SettleResume | application/runtime/resume.go:362-384 | one lock section: published only when confirmed, else uncertain |
| RuntimeOwner.Runtime.CheckControl | application/runtime/control.go:90-143 | one lock section: the answer to a control request |
| RuntimeOwner.Runtime.Control | application/runtime/control.go:108-161 | one lock section: an admission makes the run busy and adds one coordinator and one ticket |
| RuntimeOwner.Runtime.FinishControl | application/runtime/control.go:202-214 | one lock section: frees the run, gives the coordinator back and drops the ticket when told to |
| RuntimeOwner.Runtime.RejectControl | application/runtime/control.go:215-219 | one lock section: a rejected ticket is dropped, so that it can be retried |
| RuntimeOwner.Runtime.HoldIntent | application/runtime/control.go:249-263 | one lock section: the ledger takes the intent exactly when the run is still live and the ledger accepts it |
| RuntimeOwner.Runtime.AbandonIntent | application/runtime/control.go:300-311 | one lock section: forgets an intent that did not commit, or falls back to an unknown outcome |
| RuntimeOwner.Runtime.RecordControl | application/runtime/control.go:312-338 | one lock section: the receipt that is recorded: the outcome of the effect when it did not fail, is valid and was saved, and unknown when it failed or was not saved |
| RuntimeOwner.Runtime.ListRuns | application/runtime/launch.go:366-369 | one lock section: the rows of the owned runs |
| RuntimeOwner.Runtime.ListLaunches | application/runtime/launch.go:372-382 | one lock section: the rows of launches that have no run yet but may have a child |
| RuntimeOwner.Runtime.ListResumes | application/runtime/launch.go:383-392 | one lock section: the rows of resumes without a run that may have a child |
| RuntimeOwner.Runtime.List | application/runtime/launch.go:360-395 | one lock section: all rows of the roster |
| RuntimeOwner.Runtime.CountPublishingLaunches | application/runtime/lifecycle.go:89-96 | one lock section: launches transferred but not yet complete |
| RuntimeOwner.Runtime.CountPublishingResumes | application/runtime/lifecycle.go:97-105 | one lock section: resumes transferred but not yet complete |
| RuntimeOwner.Runtime.CountReconciling | application/runtime/lifecycle.go:106-114 | one lock section: exited runs whose reconciliation is not done |
| RuntimeOwner.Runtime.ListShutdown | application/runtime/lifecycle.go:71-80 | one lock section: the rows that still concern a shutdown |
| RuntimeOwner.Runtime.CurrentBinding | application/runtime/lifecycle.go:81-116 | one lock section: the binding of the current state |
| RuntimeOwner.Runtime.Uncertain | application/runtime/lifecycle.go:283-303 | one lock section: whether anything is uncertain, by searching flags, decisions, runs and launches |
| RuntimeOwner.Runtime.PreviewShutdown | application/runtime/lifecycle.go:119-138 | one lock section: stores the current binding and roster, or refuses and stores nothing |
| RuntimeOwner.Runtime.CancelShutdown | application/runtime/lifecycle.go:156-164 | one lock section: drops exactly the preview with this binding |
| RuntimeOwner.Runtime.CheckConfirmation | application/runtime/lifecycle.go:176-252 | one lock section: the answer to a confirmation; admission requires the stored preview with this binding |
| RuntimeOwner.Runtime.ConfirmShutdown | application/runtime/lifecycle.go:186-265 | one lock section: an admission prepares one decision bound to the revision right after its own change |
| RuntimeOwner.Runtime.CheckReservation | application/runtime/lifecycle.go:357-363 | one lock section: the second look refuses when the revision moved or anything became uncertain |
| RuntimeOwner.Runtime.CommitShutdown | application/runtime/lifecycle.go:376-381 | one lock section: commits and disables launches before any terminal is closed |
| RuntimeOwner.Runtime.Freeze | application/runtime/lifecycle.go:309-319 | one lock section: what an outcome freezes |
| RuntimeOwner.Runtime.JoinDecision | application/runtime/lifecycle.go:320-328 | one lock section: stores the outcome and retires the deferral only for a draining handoff |
| RuntimeOwner.Runtime.FinishShutdown | application/runtime/lifecycle.go:304-328 | one lock section: both together |
| RuntimeOwner.Runtime.SettleShutdown | application/runtime/lifecycle.go:398-420 | one lock section: draining, without error and without new doubt, exactly when every close succeeded and the outcome was saved |
| RuntimeOwner.Runtime.DisableLaunches | application/runtime/launch.go:401-412 | one lock section: disables once |
| RuntimeOwner.Runtime.CheckClean | application/runtime/lifecycle.go:470-485 | one lock section: the clean check of the current state |
| RuntimeOwner.Runtime.BeginInitialize | application/runtime/lifecycle.go:499-512 | one lock section: start-up begins only in a fresh daemon |
| RuntimeOwner.Runtime.FinishInitialize | application/runtime/lifecycle.go:513-530 | one lock section: binds the restored deferral, or disables launches |
| RuntimeOwner.Runtime.IsQuiescent | application/runtime/update.go:79-112 | one lock section: whether none of the eight blockers of an update is present |
| RuntimeOwner.Runtime.MetadataIsBusy | application/runtime/update.go:121-123 | one lock section: whether the metadata may not change now |
| RuntimeOwner.Runtime.OfferEmptyPreview | application/runtime/update.go:142-146 | one lock section: stores the empty preview of the current state |
| RuntimeOwner.Runtime.CheckAttempt | application/runtime/update.go:165-184 | one lock section: the answer to an update attempt |
| RuntimeOwner.Runtime.BeginUpdate | application/runtime/update.go:185-199 | one lock section: starts one coordinator with its candidate deferral |
| RuntimeOwner.Runtime.AttemptUpdate | application/runtime/update.go:151-199 | one lock section: answers an attempt and carries the answer out |
| RuntimeOwner.Runtime.FinishUpdate | application/runtime/update.go:231-240 | one lock section: the candidate becomes the deferral only when it was saved; doubt disables |
| RuntimeOwner.Runtime.FinishAttempt | application/runtime/update.go:201-209 | one lock section: and offers the empty preview when the daemon is quiescent after it |
| RuntimeOwner.Runtime.PublishDueUpdateNotice | application/runtime/update.go:245-285 | one lock section: marks the notice exactly when one is due and the metadata may change |
| ObservationContinuity.Observe | domain/runtime/continuity.go:56-98 | an observation keeps the tracked state well formed: available only after a last sample that says so, and never once exhausted, with the revision within 64 bits |
| ObservationContinuity.SameRevisionMeansUnbroken | domain/runtime/continuity.go:56-98 | over any samples: the state is available at its old revision if and only if no sample was unavailable, foreign, out of order, too late, or beyond a sleep |
| ObservationContinuity.UsableExactly | domain/runtime/continuity.go:128-151 | which samples are usable, if and only if |
| ObservationContinuity.AvailableExactly | domain/runtime/continuity.go:56-98 | after an observation continuity is available if and only if the sample is usable and the revision could move if it had to |
| ObservationContinuity.LostRevision | domain/runtime/continuity.go:100-122 | a revision that was lost is never available again |
| GateProofs.StepKeeps | application/runtime/observation_gate.go:201-270 | every lock section of the gate keeps: a live scope means an open gate with available continuity; one flight at most; flights and calls carry the order in which they began |
| GateTheorems.SamplersAreBounded | application/runtime/observation_gate.go:201-270 | never two samplers in flight, and a refresh joins at most two flights |
| GateTheorems.RefreshIsFresh | application/runtime/observation_gate.go:201-250 | a refresh succeeds only with the revision of a sample begun after it was asked for, not before any later loss, on an open gate |
| GateTheorems.NothingAfterClose | application/runtime/observation_gate.go:162-175 | after close no refresh succeeds, no stamp is issued and no guard passes, whatever happens |
| GateTheorems.ScopesGrow | application/runtime/observation_gate.go:177-199 | scopes are never reused, and one that is still live has seen no invalidation, close, or unavailable or discontinuous sample |
| GateTheorems.GuardMeansUnbroken | application/runtime/observation_gate.go:115-151 | a guard that passes for a stamp: the gate is intact since the stamp was issued, the revision is the same and every sample applied in between was unbroken, in every interleaving |
| GateAnswers.RefreshIsExact | application/runtime/observation_gate.go:238-249 | a joined flight satisfies a refresh if and only if its sample was taken, was begun after the refresh was asked for and not before a later loss, and gate and budget are open; an older one sends it round again |
| GateAnswers.StampIsExact | application/runtime/observation_gate.go:115-151 | a stamp is given if and only if the caller is still there and the revision is the available one of an open gate |
| GateAnswers.GuardIsExact | application/runtime/observation_gate.go:132-151 | a guard passes if and only if the caller is still there, its refresh gave the revision of the stamp, the gate is open, and every sample since the stamp was unbroken |
| GateAnswers.RefreshSucceeds | application/runtime/observation_gate.go:201-270 | in an open idle gate a usable sample in time gives the caller its revision and a stamp |
| GateAnswers.StepOrders | application/runtime/observation_gate.go:201-270 | every lock section keeps: available evidence in an open gate has a live scope, flights of an older generation began before the last loss, and those with an older request number before the request |
| GateOwner.ObservationGate.constructor | application/runtime/observation_gate.go:93-106 | one lock section: a new gate has no flight, no scope and no sample |
| GateOwner.ObservationGate.ApplySample | application/runtime/observation_gate.go:189-199 | one lock section: a sample ends the scope unless it stays available at the same revision, and opens a new one when it becomes available |
| GateOwner.ObservationGate.CloseLocked | application/runtime/observation_gate.go:168-175 | one lock section: closes for good and ends the scope |
| GateOwner.ObservationGate.FailClosed | application/runtime/observation_gate.go:177-187 | one lock section: forgets what was known, ends the scope and outdates the flight in progress |
| GateOwner.ObservationGate.Begin | application/runtime/observation_gate.go:207-215 | one lock section: numbers a new request |
| GateOwner.ObservationGate.Enter | application/runtime/observation_gate.go:216-229 | one lock section: starts a flight when there is none, else joins; an expired caller fails the gate closed |
| GateOwner.ObservationGate.Timeout | application/runtime/observation_gate.go:231-233 | one lock section: a caller that gives up fails the gate closed |
| GateOwner.ObservationGate.Wake | application/runtime/observation_gate.go:238-249 | one lock section: a finished flight satisfies only the requests that it began after |
| GateOwner.ObservationGate.Complete | application/runtime/observation_gate.go:252-270 | one lock section: a flight that outlived a loss or a close applies nothing |
| GateOwner.ObservationGate.IsCurrent | application/runtime/observation_gate.go:148-151 | one lock section: whether this revision is available in a live scope |
| GateOwner.ObservationGate.Issue | application/runtime/observation_gate.go:115-125 | one lock section: a stamp is given only for the current revision |
| GateOwner.ObservationGate.Guard | application/runtime/observation_gate.go:132-146 | one lock section: runs the callback only while the stamp is current |
| ByteLog.SlotsDiffer | domain/runtime/output.go:81-115 | two positions closer than the buffer size never share a slot of the ring |
| ByteLog.Log.constructor | domain/runtime/output.go:70-75 | an empty log within its limit |
| ByteLog.Log.Grow | domain/runtime/output.go:81-115 | growing the buffer moves every retained byte to its new slot |
| ByteLog.Log.Append | domain/runtime/output.go:81-115 | appends to the whole history, refuses beyond the last offset without any change, and retains the last bytes up to the limit in the ring |
| ByteLog.Log.Write | domain/runtime/output.go:100-113 | after the copy every retained position holds the byte of the history at that position |
| ByteLog.Log.Read | domain/runtime/output.go:118-134 | a read is a gap up to the retained bytes or a slice of the history at the cursor, and refused beyond the head |
| OutputFanout.CostMonotone | application/runtime/output.go:114-119 | more unread bytes never cost less, which is what lets a reader catch up |
| OutputFanout.AppendKeeps | application/runtime/output.go:122-142 | after an append every subscriber is still tiled, and each one still attached can be afforded |
| OutputFanout.NextKeeps | application/runtime/output.go:224-286 | handing out the next frame keeps every subscriber tiled: it begins where the last one stopped and carries the bytes of the history there |
| OutputFanout.EverySubscriberTiles | application/runtime/output.go:194-286 | for every interleaving: the frames of a subscriber tile the offsets from its first cursor without overlap or hole, data bytes are those the producer appended there, an end frame stands only at the final head, and an attached reader is never above the pending limit; at most the allowed number of subscribers is attached |
| OutputProgress.AppendIsExact | application/runtime/output.go:122-142 | an append is taken or changes nothing; a subscriber attached before it stays attached if and only if its unread bytes are affordable at the new head, and learns else from where to where it missed output |
| OutputProgress.AttachedExactly | application/runtime/output.go:122-142 | over any run an attached subscriber is still attached if and only if it could be afforded at every append, was not closed and did not reach its end |
| OutputProgress.NeverCalledSlow | application/runtime/output.go:131-139 | a subscriber that could always be afforded is never told that it was slow |
| OutputProgress.ReadyExactly | application/runtime/output.go:255-286 | which frame is next: exactly the evicted range, else as much as fits of what is retained, else at the end of a finished log its unknown tail and then its end |
| OutputProgress.ReaderCatchesUp | application/runtime/output.go:224-286 | a reader that reads on gets everything there is: its last frame, or the head of a log that is not finished |
| OutputProgress.TailIsTold | application/runtime/output.go:145-155 | a reader that was handed the end was told of an unknown tail if and only if the log was finished with one |
| OutputProgress.FinishDecides | application/runtime/output.go:145-155 | the first finish decides, and nothing changes what it said |
| OutputProgress.ClosedIsSilent | application/runtime/output.go:212-221 | a closed subscription gets nothing more |
| OutputFanout.GaplessIsVerbatim | application/runtime/output.go:255-286 | a subscriber without a gap has read the output byte for byte |
| OutputOwner.Output.constructor | application/runtime/output.go:82-107 | an output without bytes and subscribers |
| OutputOwner.Output.DetachSlow | application/runtime/output.go:122-142 | an attached subscriber stays if and only if its unread bytes are affordable at the new head |
| OutputOwner.Output.Append | application/runtime/output.go:122-142 | the bytes are appended and exactly the affordable subscribers stay attached, or the append is refused, for its size, its offset or a finished log, and nothing changes |
| OutputOwner.Output.Finish | application/runtime/output.go:145-155 | ends the output once, and keeps the first word on whether its tail is unknown |
| OutputOwner.Output.Subscribe | application/runtime/output.go:194-209 | attaches at a cursor that the log accepts, below the limit of subscribers |
| OutputOwner.Output.Close | application/runtime/output.go:212-221 | a closed subscription gets nothing more |
| OutputOwner.Output.Next | application/runtime/output.go:224-286 | hands out exactly the next frame, if there is one, and moves the cursor past it |
| PreparedStoreUpgrade.RecoveryIsLegal | domain/prepared_store_upgrade.go:199-265 | the records of every recovery list form a path that the transition table allows, one after another |
| PreparedStoreUpgrade.PathLength | domain/prepared_store_upgrade.go:291-308 | a path never takes more advances than its rise in rank plus two per retry: the retry is the only cycle |
| PreparedStoreUpgrade.RunLength | domain/prepared_store_upgrade.go:291-308 | a whole run with r retries takes at most 15+2r advances |
| PreparedStoreUpgrade.TerminalLeaves | domain/prepared_store_upgrade.go:339-350 | nothing follows a terminal phase, except that a committed compaction may be rolled back; a committed offline migration may not |
| PreparedStoreUpgrade.AbandonOnlyBeforePublication | domain/prepared_store_upgrade.go:322-336 | a run can be abandoned exactly before publication, so a stale source is a reason to abandon only there |
| PreparedStoreUpgrade.AbandonedNeverPublished | domain/prepared_store_upgrade.go:291-336 | a run that reaches abandoned went only through phases before publication |
| UpgradeCrashes.SourceIsNeverLost | application/usecase/prepared_store_upgrade.go:80-206 | in every run with crashes anywhere the original inode is the source, the candidate or the rollback; it is the source until the exchange and again after a rollback, and the rollback once committed |
| UpgradeCrashes.ExchangeOnce | infrastructure/sqlite/compaction_files.go:850-929 | the forward exchange happens at most once, only with the swap intent recorded after verification, and only puts the verified candidate in place; an abandoned run never exchanged |
| UpgradeCrashes.RecoveryIsTotal | domain/prepared_store_upgrade.go:199-265 | for every reachable placement: recovery accepts it if and only if the run is not abandoned and no candidate stands there that the journal cannot decide about; from copy complete on it is always accepted |
| UpgradeCrashes.UndurableCandidateIsRefused | domain/prepared_store_upgrade.go:239-244 | a run that dies right after creating the candidate is refused |
| UpgradeCrashes.ResumeProgresses | application/usecase/prepared_store_upgrade.go:235-311 | from copy complete on, recovery and the next normal action succeed and bring the run strictly closer to committed |
| UpgradeCrashes.BeginningProgresses | application/usecase/prepared_store_upgrade.go:80-143 | before the copy is complete too, the next normal action succeeds and moves the run one phase on |
| UpgradeCrashes.EarlyRecoveryLeads | application/usecase/prepared_store_upgrade.go:235-269 | from every early placement it can decide about, recovery leaves one from which the preparation goes on |
| UpgradeCrashes.AbandonReaches | application/usecase/store_compaction.go:272-286 | before publication a run can always be abandoned, and its candidate goes with it |
| UpgradeCrashes.RollbackIsExact | application/usecase/prepared_store_upgrade.go:313-375 | an uninterrupted rollback puts the original inode back and ends rolled back if and only if the swap was at least intended and the run is not a committed offline migration; else it is refused |
| UpgradeCrashes.RecoveryIsSafe | application/usecase/prepared_store_upgrade.go:377-402 | however far a recovery list gets before it fails or dies, the inodes stay where the journal says |
| UpgradeCrashes.NormalIsSafe | application/usecase/prepared_store_upgrade.go:80-206 | the same for every normal plan of preparation, publication and rollback |
| UpgradeCrashes.StepKeeps | infrastructure/sqlite/compaction_files.go:978-1028 | every step of every process, crashes included, keeps phase and placement in agreement |
| SupersessionOrder.LeastUnique | application/usecase/bundle_codec.go:404-418 | of a set of rows one id is least by root first, then id |
| SupersessionOrder.GreedyIsSound | application/usecase/bundle_codec.go:420-437 | the greedy order lists rows of the bundle once each, every parent in the bundle before its child |
| SupersessionOrder.RingStays | application/usecase/bundle_codec.go:420-437 | no row of a ring of supersessions is ever listed |
| SupersessionOrder.WaitingMeansCyclic | application/usecase/bundle_codec.go:438-441 | rows that stay waiting contain a ring |
| SupersessionOrder.CompleteUnlessCyclic | application/usecase/bundle_codec.go:438-441 | the greedy order lists the whole bundle if and only if there is no ring |
| SupersessionSort.IndexRows | application/usecase/bundle_codec.go:372-382 | the index is refused at the first row whose id is empty or a duplicate, and maps ids to rows otherwise |
| SupersessionSort.CollectChildren | application/usecase/bundle_codec.go:384-396 | children lists hold exactly the rows of each parent, degrees are 1 exactly for rows whose parent is in the bundle |
| SupersessionSort.Release | application/usecase/bundle_codec.go:423-428 | releasing the children of a listed row appends them to the ready list and leaves every degree as the listing of that row makes it |
| SupersessionSort.Round | application/usecase/bundle_codec.go:419-437 | one round of the main loop takes the least free row and restores the sorted ready list |
| SupersessionSort.Drain | application/usecase/bundle_codec.go:418-441 | the main loop lists the greedy order and ends only when no row is free |
| SupersessionSort.TopologicalSort | application/usecase/bundle_codec.go:367-442 | the answer: the greedy order as distinct indexes, or a cycle exactly when there is one, or the first empty or duplicate id |
| SupersessionSort.SortedIsTopological | application/usecase/bundle_codec.go:367-442 | a sorted answer is a permutation of the indexes in which every parent in the bundle precedes its child |
| SupersessionSort.SortIsCanonical | application/usecase/bundle_codec.go:384-441 | permuted rows give the same sequence of ids, and a cycle for both or neither |
| SupersessionSort.OffendersRefuse | application/usecase/bundle_codec.go:372-382 | empty and duplicate ids, and only they, are refused as such |
| SupersessionSort.SortBundleRows | application/usecase/bundle_codec.go:292-314 | the caller gets its own rows in the sorted order |
| Utf8.ValidParts | application/usecase/event_usecase_impl.go:461-480 | valid UTF-8 cut where the forward decoder stands is valid on both sides |
| Utf8.ValidBackParts | application/usecase/event_usecase_impl.go:482-501 | valid UTF-8 cut where the backward decoder stands is valid on both sides |
| Utf8.LastSizeIsRune | application/usecase/event_usecase_impl.go:482-501 | the backward decoder finds the last rune of a sequence that ends with one |
| AuditTruncation.TakePrefix | application/usecase/event_usecase_impl.go:461-480 | the head is the longest prefix within the limit that ends between runes, at most 3 bytes short; for any bytes |
| AuditTruncation.TakeSuffix | application/usecase/event_usecase_impl.go:482-501 | the tail is the longest suffix within the limit that begins between runes, at most 3 bytes short; for any bytes |
| AuditTruncation.Truncate | application/usecase/event_usecase_impl.go:430-459 | truncates exactly when 0 < limit < size: within the limit, a disjoint head and tail around the marker, each within 3 bytes of its half of what the marker leaves, or a cut marker |
| AuditTruncation.TruncationIsValid | application/usecase/event_usecase_impl.go:430-459 | the body of valid UTF-8 is valid UTF-8 and within a positive limit |
| AuditTruncation.SizeReadBack | domain/model/command_audit.go:278-298 | the size read from head, marker and tail is the size in the marker, unless the tail mentions a marker: then it is what the tail alone gives |
| AuditTruncation.CutMarkerSize | domain/model/command_audit.go:270-298 | a cut marker gives its size if at most its last newline is missing, and 0 otherwise |
| AuditTruncation.TruncatedSizeReadBack | domain/model/command_audit.go:278-298 | for every truncated payload: the size is read back if and only if the marker is whole up to its newline and the kept tail mentions no marker, or one of the same size |
| AuditTruncation.ForgedPayloadLosesSize | domain/model/command_audit.go:278-298 | a payload that ends like a marker: its truncation is read back as 1 byte |
| LiteralSearch.FoldForgetsCase | application/types/literal_search.go:68-75 | folding makes two texts equal if and only if they differ at most in the case of ASCII letters; no other rune changes |
| LiteralSearch.CanonicalForgetsCase | application/types/literal_search.go:27-28 | two texts have one canonical form if and only if, trimmed, they do |
| LiteralSearch.MatchingForgetsCase | application/types/search_phrase.go:13-30 | a phrase is found whatever the case of its letters or of the text |
| LiteralSearch.CaseStable | application/types/literal_search.go:33-39 | whether no rune beyond ASCII changes under either case mapping |
| LiteralSearch.Fingerprint | application/types/literal_search.go:44-58 | the distinct digests of all trigrams, given up exactly when there are more than the limit |
| LiteralSearch.Characterize | application/types/literal_search.go:27-59 | canonical text, and a filter exactly when the text is long enough, short enough and case-stable and its digests are few enough |
| LiteralSearch.FilterKeepsMatches | application/types/literal_search.go:27-89 | if both sides are filterable and the needle occurs in the text, its fingerprints are among those of the text: the filter drops no match |
| LiteralSearch.PhraseAgreesWithLiteral | application/types/search_phrase.go:13-30 | a phrase matches an untrimmed text if and only if the literal query does, which trims both sides |

## Left out

- Native adapters and files: terminals, processes, sockets, SQLite and the file system appear only as the answers their ports may give.
- Deadlines: any context may end at any step, so the theorems are about safety, and about progress only where they name a measure.
- Process ids, exit codes, targets, profiles and other descriptive fields, and the syntax checks of strings; strings compared only for equality are numbers.
- Ports that a daemon may lack, and the refusals for them, except the lifecycle repository.
- The observations, projections and records kept about a recovery beside its attempt.
- Digests, fingerprints and random identities: a roster digest is the rows it digests, fingerprints are injective values, identities are drawn fresh.
- `RuntimeOwner.Runtime.AttemptCreated`: the answer of the reservation port and the lock section that follows it are one step, because nothing in between depends on the state.
- `RuntimeOwner.Runtime.Launch`: a ticket is a value reached by a reference, so that aliasing between goroutines is a shared reference; the flags and the revision guarded together are one field.
- `RuntimeOwner.Runtime.Control`: the controls of a run are kept in a map beside the runs, not inside them; the size of an input stands for its bytes.
- `OutputOwner.Output.Subscribe`: subscriptions are named by numbers, not by handles.
- Resizing of terminals, and the capture information beside the head of an output.
- Exact-exit waits (`AwaitExit`), plain receipt reads and status reports: reads of fields whose laws are proved above.
- A whole snapshot at one revision: a failing launch marks itself uncertain before the revision moves, so only identities are claimed.
- `RunPages.WalkSeesRoster`: below revision exhaustion only; at the last revision changes no longer move it.
- `SupersessionSort.TopologicalSort`: the library sort of the ready list is an insertion sort here; both give the one sorted list, since ids are distinct.
- `sortBundleSessionRows`, the session encoder and the fallback of the exporter: they do not order by ancestry.
- `UpgradeCrashes.SourceIsNeverLost`: a file is its inode; sizes and times, which the program compares too, are left out, as are leases, sidecar files, the retired index and what is durable before a sync; the recipe that fills a candidate is taken to touch only the inode it was given.
- `LiteralSearch.Characterize`: text is a sequence of code points, so bytes that are not UTF-8 are left out; the case tables and the digest are parameters.
- Redaction, bundle encryption and archives, and the row conversions around them.
