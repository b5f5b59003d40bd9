/** The state owned by one headless runtime daemon, and the durable facts that
    survive it.

    The owner object and its mutex guard everything here but the histories.
    Goroutines are represented by the phase stored in the ticket or run they work
    on, so a state also says where each of them stands between two lock sections.
    What outlives a crash is the journal of resume attempts, the identities drawn
    so far, and the counted history of native and durable effects.

    Strings that are only compared for equality (request, preview and target
    names, epochs) are numbers here. A run identity is 32 lower-case hexadecimal
    digits, whose string order is the order of the numbers they write. */
module RuntimeState {
  import opened Options

  const MAX_REVISION: nat := 0xFFFF_FFFF_FFFF_FFFF
  const MAX_ACTIVE_RUNS: nat := 256
  const MAX_LAUNCH_REQUESTS: nat := 1024
  const MAX_CONTROL_COORDINATORS: nat := 32
  const MAX_CONTROL_RECEIPTS: nat := 1024
  const RESERVED_LIFECYCLE_RECEIPTS: nat := 16
  const DAY: int := 86_400_000_000_000

  type Ref = nat
  type RequestId = nat
  type RunId = nat
  type PreviewId = nat
  type TargetId = nat

  datatype Failure =
    | ErrChanged | ErrLimit | ErrBusy | ErrNotFound | ErrRejected
    | ErrInvalid | ErrUnsupported | ErrUnknown | ErrOther

  // ---- Launch descriptors -------------------------------------------------

  datatype RunState = Reserved | Live | Exited

  datatype RunSnapshot = RunSnapshot(run: RunId, state: RunState, uncertain: bool)
  {
    function MarkUncertain(): RunSnapshot { this.(uncertain := true) }

    /** Started with the process id of the transferred child; a bad id leaves the
        descriptor reserved and uncertain. */
    function Started(pid: int): RunSnapshot
    {
      if state == Reserved && pid > 0 then this.(state := Live) else MarkUncertain()
    }
  }

  // ---- Launch -------------------------------------------------------------

  datatype LaunchRequest = LaunchRequest(epoch: nat, worktree: nat, profile: nat, id: RequestId)

  /** What the native start port answered. `Refused(false)` is its promise that no
      started child escaped; `Refused(true)` carries the launch-unknown error. */
  datatype StartOutcome =
    | NotCalled
    | Refused(unknown: bool)
    | NoChild
    | Child(pid: int, withError: bool)
  {
    predicate PossibleChild() { NoChild? || (Refused? && unknown) }
  }

  datatype LaunchPhase =
    | Preparing           // resolving the target and the profile
    | Reserving           // committed to starting; durable intent being written
    | Returned            // the start port answered, see `start`
    | Publishing          // child transferred; saving the launch
    | SavingUncertain     // between the two lock sections of a possible-child failure
    | Finished(stranded: bool)

  /** `saved` records what the journal answered to the save of a transferred launch. */
  datatype LaunchTicket = LaunchTicket(
    request: LaunchRequest,
    waiters: nat,
    starting: bool, complete: bool, aborted: bool, abandoned: bool,
    snapshot: RunSnapshot,
    result: Option<RunSnapshot>,
    error: Option<Failure>,
    start: StartOutcome,
    saved: Option<bool>,
    phase: LaunchPhase)

  // ---- Resume -------------------------------------------------------------

  datatype ResumeRequest = ResumeRequest(epoch: nat, selection: nat, id: RequestId)

  datatype AttemptPhase =
    | AttemptReserved | AttemptStarted | AttemptConfirmed | AttemptUnknown | AttemptFailedBeforeStart

  /** A durable attempt. `creator` is the epoch whose reservation created it. */
  datatype Attempt = Attempt(selection: nat, phase: AttemptPhase, creator: nat)

  datatype ResumePhase =
    | ResumePreparing     // inspecting stored attempts and native evidence
    | ResumeReserving     // committed; create-if-absent reservation in flight
    | ResumeReserved      // this operation created the attempt
    | ResumeReturned      // the native resume port answered, see `start`
    | ResumeSettling      // child transferred; saving and confirming
    | ResumeCompleting(confirmed: bool)
    | ResumeFinished

  datatype ResumeResult = ResumeResult(phase: Option<AttemptPhase>, owned: bool)

  /** `stored` is the durable attempt the request was answered from, `confirmed` says
      whether everything after the transfer of the child succeeded. */
  datatype ResumeTicket = ResumeTicket(
    request: ResumeRequest,
    waiters: nat,
    cancelled: bool,
    starting: bool, complete: bool, attached: bool, possibleChild: bool,
    snapshot: RunSnapshot,
    result: ResumeResult,
    error: Option<Failure>,
    start: StartOutcome,
    stored: Option<Attempt>,
    confirmed: Option<bool>,
    phase: ResumePhase)

  // ---- Owned runs ---------------------------------------------------------

  datatype RunPhase =
    | Unpublished                    // its launch or resume has not finished publishing
    | Waiting                        // the single Wait is outstanding
    | SavingExit(exitKnown: bool)    // exit observed; being journaled
    | Reconciled(exitKnown: bool)    // done

  /** `waited` and `journaled` record what Wait and the journal answered about the exit. */
  datatype OwnedRun = OwnedRun(
    snapshot: RunSnapshot,
    published: bool,
    waitFailed: bool,
    exitSaved: bool,
    waited: Option<bool>,
    journaled: Option<bool>,
    phase: RunPhase)

  // ---- Controls -----------------------------------------------------------

  datatype ControlKind = Input | Resize | Stop
  datatype Intent = Intent(id: RequestId, kind: ControlKind, inputBytes: nat)
  datatype Outcome = Pending | Delivered | Unknown | Rejected
  datatype Receipt = Receipt(intent: Intent, outcome: Outcome, written: int)

  datatype LedgerEntry = LedgerEntry(receipt: Receipt, fingerprint: nat)
  datatype Ledger = Ledger(entries: map<RequestId, LedgerEntry>, nonLifecycle: int)
  datatype RunControls = RunControls(ledger: Ledger, tickets: map<RequestId, Ref>, busy: bool)

  datatype ControlPhase =
    | Validating
    | Rejecting
    | Held                // ledger entry reserved; durable intent being written
    | RollingBack         // the durable intent definitely did not commit
    | Committed           // durable intent committed; effect admitted
    | Completing(effect: ControlEffect)
    | Finishing(final: Receipt)
    | Done

  datatype ControlEffect = ControlEffect(outcome: Outcome, written: int, failed: bool)

  /** The journal's three answers to a durable intent. */
  datatype Durability = DefinitelyNot | MaybeCommitted | CommittedIntent

  /** `reserved`, `applied` and `saved` record what the control ports answered. */
  datatype ControlTicket = ControlTicket(
    run: RunId,
    intent: Intent,
    fingerprint: nat,
    receipt: Receipt,
    error: Option<Failure>,
    reserved: Option<Durability>,
    applied: Option<ControlEffect>,
    saved: bool,
    phase: ControlPhase)

  // ---- Shutdown and update ------------------------------------------------

  /** A roster digest is replaced by the rows it digests. */
  datatype Binding = Binding(
    epoch: nat, preview: PreviewId, revision: nat, rows: set<RunSnapshot>,
    totalRuns: int, pendingLaunches: int, pendingControls: int, pendingReconciliations: int)

  datatype Preview = Preview(binding: Binding, runs: set<RunSnapshot>)

  datatype Purpose = Manual | Update(target: TargetId)
  datatype ShutdownOutcome = ShutdownPending | Draining | ShutdownUnknown | ShutdownRejected

  datatype ShutdownPhase =
    | Revalidating(reservation: nat)
    | Refusing
    | Checked
    | Closing(todo: set<RunId>, closed: nat, failed: bool)
    | Settled

  /** `closes` and `saved` record what the terminals and the journal answered. */
  datatype ShutdownTicket = ShutdownTicket(
    binding: Binding,
    purpose: Purpose,
    children: set<RunId>,
    outcome: ShutdownOutcome,
    closedTerminals: nat,
    error: Option<Failure>,
    committed: bool,
    closes: map<RunId, bool>,
    saved: Option<bool>,
    phase: ShutdownPhase)

  datatype Deferral = Deferral(target: TargetId, started: int, notified: bool)
  {
    predicate Overdue(now: int) { now >= started + DAY }

    function Notice(now: int): Deferral
    {
      if notified || !Overdue(now) then this else this.(notified := true)
    }
  }

  datatype UpdateTicket = UpdateTicket(candidate: Deferral, attempt: Option<PreviewId>, settled: bool)

  // ---- Components ---------------------------------------------------------

  /** Who drew a run identity. */
  datatype Drawer = ByLaunch(epoch: nat, ref: Ref) | ByResume(epoch: nat, id: RequestId)

  /** Launch and resume reservations, owned runs, and the durable attempts. The
      last two fields count the native calls made for each request. */
  datatype Ownership = Ownership(
    pending: int, active: int,
    index: map<RequestId, Ref>,
    launches: map<Ref, LaunchTicket>,
    resumes: map<RequestId, ResumeTicket>,
    runs: map<RunId, OwnedRun>,
    attempts: map<RequestId, Attempt>,
    drawn: map<RunId, Drawer>,
    starts: multiset<(nat, RequestId)>,
    resumed: multiset<RequestId>)

  /** Control coordinators and per-run ledgers, with the durable intents and the
      native effects counted per run and request. */
  datatype Controls = Controls(
    pending: int,
    ledgers: map<RunId, RunControls>,
    tickets: map<Ref, ControlTicket>,
    intents: multiset<(RunId, RequestId)>,
    applied: multiset<(RunId, RequestId)>)

  /** Shutdown decisions, update deferral, start-up and clean publication, with
      the durable decisions, closed terminals and clean markers counted. */
  datatype Lifecycle = Lifecycle(
    bound: bool, starting: bool, uncertain: bool,
    preparing: bool, committed: bool,
    pending: int,
    preview: Option<Preview>,
    shutdowns: map<PreviewId, ShutdownTicket>,
    updates: map<Ref, UpdateTicket>,
    deferral: Option<Deferral>,
    cleanChecked: bool,
    decided: multiset<(nat, PreviewId)>,
    closed: multiset<RunId>,
    cleaned: multiset<nat>)

  datatype Gate = Gate(disabled: bool, exhausted: bool, revision: nat)
  {
    /** Every observable change moves the revision; at its last value the owner
        refuses new work instead of wrapping. */
    function Bump(): Gate
    {
      var last := revision == MAX_REVISION;
      Gate(disabled || last, exhausted || last, if last then revision else revision + 1)
    }

    predicate Spent() { exhausted || revision == MAX_REVISION }
  }

  datatype State = State(epoch: nat, gate: Gate, own: Ownership, ctl: Controls, life: Lifecycle)

  /** A new daemon over what earlier ones left behind. */
  function NewRuntime(epoch: nat, own: Ownership, ctl: Controls, life: Lifecycle): State
  {
    State(epoch, Gate(false, false, 0),
          Ownership(0, 0, map[], map[], map[], map[], own.attempts, own.drawn, own.starts, own.resumed),
          Controls(0, map[], map[], ctl.intents, ctl.applied),
          Lifecycle(false, false, false, false, false, 0, None, map[], map[], None, false, life.decided, life.closed, life.cleaned))
  }

  predicate AdmissionClosed(s: State)
  {
    s.gate.disabled || s.life.preparing || s.life.committed || s.life.starting
  }

  // ---- The roster ---------------------------------------------------------

  predicate ListedLaunch(t: LaunchTicket)
  {
    (t.starting && !t.complete) || (t.result.Some? && t.result.value.uncertain)
  }

  function LaunchSnapshot(t: LaunchTicket): RunSnapshot
    requires ListedLaunch(t)
  {
    if t.starting && !t.complete then t.snapshot else t.result.value
  }

  predicate ListedResume(t: ResumeTicket)
  {
    !t.attached && (t.possibleChild || (t.starting && !t.complete))
  }

  function Roster(o: Ownership): set<RunSnapshot>
  {
    (set r | r in o.runs :: o.runs[r].snapshot)
    + (set id | id in o.index && o.index[id] in o.launches && ListedLaunch(o.launches[o.index[id]])
                && LaunchSnapshot(o.launches[o.index[id]]).run !in o.runs
         :: LaunchSnapshot(o.launches[o.index[id]]))
    + (set id | id in o.resumes && ListedResume(o.resumes[id]) :: o.resumes[id].snapshot.MarkUncertain())
  }

  function Ids(rows: set<RunSnapshot>): set<RunId> { set x | x in rows :: x.run }

  function ShutdownRoster(o: Ownership): set<RunSnapshot>
  {
    set x | x in Roster(o) && (x.state != Exited || x.uncertain)
  }

  function PublishingLaunches(o: Ownership): set<RequestId>
  {
    set id | id in o.index && o.index[id] in o.launches && o.launches[o.index[id]].starting
             && !o.launches[o.index[id]].complete && o.launches[o.index[id]].snapshot.run in o.runs
  }

  function PublishingResumes(o: Ownership): set<RequestId>
  {
    set id | id in o.resumes && o.resumes[id].starting && !o.resumes[id].complete && o.resumes[id].attached
             && o.resumes[id].snapshot.run in o.runs
  }

  function ReconcilingRuns(o: Ownership): set<RunId>
  {
    set r | r in o.runs && o.runs[r].snapshot.state == Exited && !o.runs[r].phase.Reconciled?
  }

  function BindingOf(s: State, id: PreviewId): Binding
  {
    var roster := ShutdownRoster(s.own);
    Binding(s.epoch, id, s.gate.revision, roster, |roster|,
            s.own.pending + |PublishingLaunches(s.own)| + |PublishingResumes(s.own)|,
            s.ctl.pending, |ReconcilingRuns(s.own)|)
  }

  predicate BindingInRange(b: Binding)
  {
    0 <= b.totalRuns <= MAX_LAUNCH_REQUESTS && 0 <= b.pendingLaunches <= MAX_ACTIVE_RUNS
    && 0 <= b.pendingControls <= MAX_CONTROL_COORDINATORS && 0 <= b.pendingReconciliations <= MAX_ACTIVE_RUNS
  }

  /** A binding is confirmed only by an equal one with nothing in motion. */
  predicate Confirms(b: Binding, current: Binding)
  {
    BindingInRange(b) && BindingInRange(current) && b == current
    && current.pendingLaunches == 0 && current.pendingControls == 0 && current.pendingReconciliations == 0
  }

  predicate EmptyBinding(b: Binding)
  {
    b.rows == {} && b.totalRuns == 0 && b.pendingLaunches == 0 && b.pendingControls == 0 && b.pendingReconciliations == 0
  }

  predicate UncertainOwnership(o: Ownership)
  {
    (exists r :: r in o.runs && o.runs[r].snapshot.uncertain)
    || (exists id :: id in o.index && o.index[id] in o.launches
          && o.launches[o.index[id]].result.Some? && o.launches[o.index[id]].result.value.uncertain)
  }

  predicate HasUncertain(s: State)
  {
    s.life.uncertain
    || (exists p :: p in s.life.shutdowns && s.life.shutdowns[p].outcome == ShutdownUnknown)
    || UncertainOwnership(s.own)
  }

  /** What the shutdown loop waits for before it releases the daemon. */
  predicate Idle(s: State) { s.own.pending + s.own.active + s.ctl.pending + s.life.pending == 0 }
}
