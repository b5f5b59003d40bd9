/** Lock sections and port calls of an ordinary launch and of run reconciliation. */
module LaunchSteps {
  import opened Options
  import opened RuntimeState

  datatype LaunchAdmission = Refuse(error: Failure) | Join(ref: Ref) | Admit

  predicate Full(o: Ownership)
  {
    o.pending + o.active >= MAX_ACTIVE_RUNS || |o.index| + |o.resumes| >= MAX_LAUNCH_REQUESTS
  }

  /** The admission section, branch by branch. */
  function AdmitLaunchReply(s: State, request: LaunchRequest): LaunchAdmission
  {
    if request.epoch != s.epoch then Refuse(ErrChanged)
    else if request.id in s.own.index && s.own.index[request.id] in s.own.launches then
      var ref := s.own.index[request.id];
      if s.own.launches[ref].request != request then Refuse(ErrChanged) else Join(ref)
    else if s.gate.Spent() then Refuse(ErrLimit)
    else if AdmissionClosed(s) then Refuse(ErrBusy)
    else if Full(s.own) then Refuse(ErrLimit)
    else Admit
  }

  const NoSnapshot := RunSnapshot(0, Reserved, false)

  function AdmitLaunch(o: Ownership, request: LaunchRequest, ref: Ref): Ownership
  {
    var ticket := LaunchTicket(request, 1, false, false, false, false, NoSnapshot, None, None, NotCalled, None, Preparing);
    o.(index := o.index[request.id := ref], launches := o.launches[ref := ticket], pending := o.pending + 1)
  }

  function SetLaunch(o: Ownership, ref: Ref, t: LaunchTicket): Ownership { o.(launches := o.launches[ref := t]) }

  function JoinLaunch(o: Ownership, ref: Ref): Ownership
    requires ref in o.launches
  {
    SetLaunch(o, ref, o.launches[ref].(waiters := o.launches[ref].waiters + 1))
  }

  /** A waiter leaves because the ticket completed, or because it was cancelled.
      The last cancelled waiter abandons a launch that has not begun starting. */
  function LeaveLaunch(o: Ownership, ref: Ref): Ownership
    requires ref in o.launches && o.launches[ref].waiters > 0
  {
    var t := o.launches[ref];
    SetLaunch(o, ref, t.(waiters := t.waiters - 1,
                         abandoned := t.abandoned || (!t.complete && !t.starting && t.waiters == 1)))
  }

  /** The commit boundary: from here cancellation cannot erase the launch. */
  function CommitLaunch(epoch: nat, o: Ownership, ref: Ref, run: RunId): Ownership
    requires ref in o.launches
  {
    var t := o.launches[ref];
    SetLaunch(o, ref, t.(starting := true, snapshot := RunSnapshot(run, Reserved, false), phase := Reserving))
            .(drawn := o.drawn[run := ByLaunch(epoch, ref)])
  }

  function CallStart(epoch: nat, o: Ownership, ref: Ref, outcome: StartOutcome): Ownership
    requires ref in o.launches
  {
    var t := o.launches[ref];
    SetLaunch(o, ref, t.(start := outcome, phase := Returned))
      .(starts := o.starts + multiset{(epoch, t.request.id)})
  }

  function TransferLaunch(o: Ownership, ref: Ref): Ownership
    requires ref in o.launches && o.launches[ref].start.Child?
  {
    var t := o.launches[ref];
    var snapshot := t.snapshot.Started(t.start.pid);
    SetLaunch(o, ref, t.(snapshot := snapshot, phase := Publishing))
            .(pending := o.pending - 1, active := o.active + 1,
              runs := o.runs[t.snapshot.run := OwnedRun(snapshot, false, false, false, None, None, Unpublished)])
  }

  function MarkRunUncertain(r: OwnedRun): OwnedRun
  {
    r.(snapshot := r.snapshot.MarkUncertain(), published := false)
  }

  function PublishLaunch(o: Ownership, ref: Ref, saved: bool): Ownership
    requires ref in o.launches && o.launches[ref].start.Child? && o.launches[ref].snapshot.run in o.runs
  {
    var t := o.launches[ref];
    var run := o.runs[t.snapshot.run];
    var bad := t.start.pid <= 0 || !saved;
    var run' := (if bad then MarkRunUncertain(run) else run.(published := true)).(phase := Waiting);
    var t' := t.(result := Some(run'.snapshot), complete := true, phase := Finished(false), saved := Some(saved),
                 error := if bad then Some(ErrUnknown) else t.error);
    SetLaunch(o, ref, t').(runs := o.runs[t.snapshot.run := run'])
  }

  /** The failure section. A failure that may hide a child keeps its reservation
      and is finished by a second section, after its snapshot was saved. */
  function FailLaunch(o: Ownership, ref: Ref, unknown: bool): Ownership
    requires ref in o.launches
  {
    var t := o.launches[ref];
    var drop := !t.starting && t.abandoned;
    if t.starting && unknown then
      var snapshot := t.snapshot.MarkUncertain();
      SetLaunch(o, ref, t.(snapshot := snapshot, result := Some(snapshot), error := Some(ErrUnknown), phase := SavingUncertain))
    else
      SetLaunch(o, ref,
                t.(result := if t.starting then Some(t.snapshot) else t.result,
                   aborted := t.aborted || drop,
                   error := if drop then t.error else Some(if unknown then ErrUnknown else ErrOther),
                   complete := true, phase := Finished(false)))
              .(pending := o.pending - 1, index := if drop then o.index - {t.request.id} else o.index)
  }

  function FinishUncertainLaunch(o: Ownership, ref: Ref): Ownership
    requires ref in o.launches
  {
    SetLaunch(o, ref, o.launches[ref].(complete := true, phase := Finished(true)))
  }

  // ---- Reconciling an owned run -------------------------------------------

  /** Wait returned. The exit is known only when the descriptor was live. */
  function ObserveWait(o: Ownership, id: RunId, waited: bool): Ownership
    requires id in o.runs
  {
    var run := o.runs[id];
    var known := waited && run.snapshot.state == Live;
    var run' := if known then run.(snapshot := run.snapshot.(state := Exited))
                else MarkRunUncertain(run).(waitFailed := true);
    o.(runs := o.runs[id := run'.(waited := Some(waited), phase := SavingExit(known))])
  }

  function FinishReconcile(o: Ownership, id: RunId, saved: bool): Ownership
    requires id in o.runs && o.runs[id].phase.SavingExit?
  {
    var run := o.runs[id];
    var known := run.phase.exitKnown;
    var run' := if saved then run.(exitSaved := known) else MarkRunUncertain(run);
    o.(runs := o.runs[id := run'.(journaled := Some(saved), phase := Reconciled(known))],
               active := if known then o.active - 1 else o.active)
  }

  // ---- Steps --------------------------------------------------------------

  datatype LaunchStep =
    | DoAdmitLaunch(request: LaunchRequest, ref: Ref)
    | DoJoinLaunch(request: LaunchRequest, ref: Ref)
    | DoLeaveLaunch(ref: Ref)
    | DoCommitLaunch(ref: Ref, run: RunId)
    | DoCallStart(ref: Ref, outcome: StartOutcome)
    | DoTransferLaunch(ref: Ref)
    | DoPublishLaunch(ref: Ref, saved: bool)
    | DoFailLaunch(ref: Ref, unknown: bool)
    | DoFinishUncertain(ref: Ref)
    | DoObserveWait(run: RunId, waited: bool)
    | DoFinishReconcile(run: RunId, saved: bool)

  predicate LaunchIn(o: Ownership, ref: Ref, phase: LaunchPhase) { ref in o.launches && o.launches[ref].phase == phase }

  /** Where a failing launch may stand, and what it then knows of the error. */
  predicate MayFail(t: LaunchTicket, unknown: bool)
  {
    match t.phase
    case Preparing => true
    case Reserving => true
    case Returned => (t.start.Refused? && t.start.unknown == unknown) || (t.start.NoChild? && unknown)
    case _ => false
  }

  predicate LaunchEnabled(s: State, step: LaunchStep)
  {
    match step
    case DoAdmitLaunch(request, ref) => ref !in s.own.launches && AdmitLaunchReply(s, request) == Admit
    case DoJoinLaunch(request, ref) => AdmitLaunchReply(s, request) == LaunchAdmission.Join(ref)
    case DoLeaveLaunch(ref) => ref in s.own.launches && s.own.launches[ref].waiters > 0
    case DoCommitLaunch(ref, run) => LaunchIn(s.own, ref, Preparing) && !s.own.launches[ref].abandoned && run !in s.own.drawn
    case DoCallStart(ref, outcome) =>
      LaunchIn(s.own, ref, Reserving) && !outcome.NotCalled? && (outcome.Child? ==> !outcome.withError)
    case DoTransferLaunch(ref) => LaunchIn(s.own, ref, Returned) && s.own.launches[ref].start.Child?
    case DoPublishLaunch(ref, _) => LaunchIn(s.own, ref, Publishing) && s.own.launches[ref].start.Child? && s.own.launches[ref].snapshot.run in s.own.runs
    case DoFailLaunch(ref, unknown) => ref in s.own.launches && MayFail(s.own.launches[ref], unknown)
    case DoFinishUncertain(ref) => LaunchIn(s.own, ref, SavingUncertain)
    case DoObserveWait(run, _) => run in s.own.runs && s.own.runs[run].phase == Waiting
    case DoFinishReconcile(run, _) => run in s.own.runs && s.own.runs[run].phase.SavingExit?
  }

  /** The sections that end by signalling a change; the others only touch a
      waiter count, call a port, or stop half way to save an uncertain launch. */
  predicate LaunchSignals(o: Ownership, step: LaunchStep)
  {
    match step
    case DoJoinLaunch(_, _) => false
    case DoLeaveLaunch(_) => false
    case DoCallStart(_, _) => false
    case DoFailLaunch(ref, unknown) => !(unknown && ref in o.launches && o.launches[ref].starting)
    case _ => true
  }

  function LaunchOwnership(s: State, step: LaunchStep): Ownership
    requires LaunchEnabled(s, step)
  {
    match step
    case DoAdmitLaunch(request, ref) => AdmitLaunch(s.own, request, ref)
    case DoJoinLaunch(_, ref) => JoinLaunch(s.own, ref)
    case DoLeaveLaunch(ref) => LeaveLaunch(s.own, ref)
    case DoCommitLaunch(ref, run) => CommitLaunch(s.epoch, s.own, ref, run)
    case DoCallStart(ref, outcome) => CallStart(s.epoch, s.own, ref, outcome)
    case DoTransferLaunch(ref) => TransferLaunch(s.own, ref)
    case DoPublishLaunch(ref, saved) => PublishLaunch(s.own, ref, saved)
    case DoFailLaunch(ref, unknown) => FailLaunch(s.own, ref, unknown)
    case DoFinishUncertain(ref) => FinishUncertainLaunch(s.own, ref)
    case DoObserveWait(run, waited) => ObserveWait(s.own, run, waited)
    case DoFinishReconcile(run, saved) => FinishReconcile(s.own, run, saved)
  }

  function LaunchApply(s: State, step: LaunchStep): State
    requires LaunchEnabled(s, step)
  {
    s.(own := LaunchOwnership(s, step), gate := if LaunchSignals(s.own, step) then s.gate.Bump() else s.gate)
  }
}
