/** Lock sections and port calls of a managed resume, and its durable attempt. */
module ResumeSteps {
  import opened Options
  import opened RuntimeState
  import opened LaunchSteps

  datatype ResumeAdmission = RefuseResume(error: Failure) | JoinExisting | AdmitNew

  function AdmitResumeReply(s: State, request: ResumeRequest): ResumeAdmission
  {
    if request.epoch != s.epoch then RefuseResume(ErrChanged)
    else if request.id in s.own.resumes then
      if s.own.resumes[request.id].request != request then RefuseResume(ErrChanged) else JoinExisting
    else if AdmissionClosed(s) then RefuseResume(ErrBusy)
    else if Full(s.own) then RefuseResume(ErrLimit)
    else AdmitNew
  }

  const NoResult := ResumeResult(None, false)

  function SetResume(o: Ownership, id: RequestId, t: ResumeTicket): Ownership { o.(resumes := o.resumes[id := t]) }

  function AdmitResume(o: Ownership, request: ResumeRequest): Ownership
  {
    SetResume(o, request.id,
              ResumeTicket(request, 1, false, false, false, false, false, NoSnapshot, NoResult, None, NotCalled, None, None, ResumePreparing))
            .(pending := o.pending + 1)
  }

  function JoinResume(o: Ownership, id: RequestId): Ownership
    requires id in o.resumes
  {
    SetResume(o, id, o.resumes[id].(waiters := o.resumes[id].waiters + 1))
  }

  function LeaveResume(o: Ownership, id: RequestId): Ownership
    requires id in o.resumes && o.resumes[id].waiters > 0
  {
    var t := o.resumes[id];
    SetResume(o, id, t.(waiters := t.waiters - 1,
                        cancelled := t.cancelled || (!t.complete && !t.starting && t.waiters == 1)))
  }

  /** The completion section shared by every ending of a resume. */
  function Complete(o: Ownership, id: RequestId, result: ResumeResult, error: Option<Failure>, possibleChild: bool): Ownership
    requires id in o.resumes
  {
    var t := o.resumes[id];
    var t' := t.(result := result, error := error, possibleChild := possibleChild, complete := true, phase := ResumeFinished);
    SetResume(o, id, t').(pending := if !t.attached && !possibleChild then o.pending - 1 else o.pending)
  }

  /** What a stored attempt answers; no phase of it is permission to start again. */
  function StoredError(phase: AttemptPhase): Option<Failure>
  {
    match phase
    case AttemptConfirmed => None
    case AttemptFailedBeforeStart => Some(ErrRejected)
    case _ => Some(ErrUnknown)
  }

  /** A failure before the commit boundary, without a stored attempt. */
  function FailResume(o: Ownership, id: RequestId, error: Failure): Ownership
    requires id in o.resumes
  {
    Complete(o, id, NoResult, Some(error), false)
  }

  /** An attempt for this request is already durable. */
  function AnswerStored(o: Ownership, id: RequestId): Ownership
    requires id in o.resumes && id in o.attempts
  {
    var a := o.attempts[id];
    var same := a.selection == o.resumes[id].request.selection;
    Complete(SetResume(o, id, o.resumes[id].(stored := Some(a))), id, ResumeResult(if same then Some(a.phase) else None, false),
             if same then StoredError(a.phase) else Some(ErrChanged), false)
  }

  function CommitResume(epoch: nat, o: Ownership, id: RequestId, run: RunId): Ownership
    requires id in o.resumes
  {
    var t := o.resumes[id];
    SetResume(o, id, t.(starting := true, snapshot := RunSnapshot(run, Reserved, false),
                                result := ResumeResult(Some(AttemptUnknown), false), phase := ResumeReserving))
            .(drawn := o.drawn[run := ByResume(epoch, id)])
  }

  function StoreAttempt(o: Ownership, id: RequestId, phase: AttemptPhase): Ownership
    requires id in o.attempts
  {
    o.(attempts := o.attempts[id := o.attempts[id].(phase := phase)])
  }

  /** The reservation port failed; it may still have made the attempt durable. */
  function FailReservation(epoch: nat, o: Ownership, id: RequestId, committed: bool, error: Failure): Ownership
    requires id in o.resumes
  {
    var o' := o.(attempts := if committed && id !in o.attempts
                             then o.attempts[id := Attempt(o.resumes[id].request.selection, AttemptReserved, epoch)]
                             else o.attempts);
    Complete(o', id, ResumeResult(Some(AttemptUnknown), false), Some(error), false)
  }

  /** Create-if-absent succeeded: this operation owns the new attempt. */
  function CreateAttempt(epoch: nat, o: Ownership, id: RequestId): Ownership
    requires id in o.resumes
  {
    var t := o.resumes[id];
    SetResume(o, id, t.(result := ResumeResult(Some(AttemptReserved), false), phase := ResumeReserved))
            .(attempts := o.attempts[id := Attempt(t.request.selection, AttemptReserved, epoch)])
  }

  /** `stored` is the phase the journal holds after the attempt to save; a failed
      save may have committed, so it is then arbitrary. */
  function FailBeforeStart(o: Ownership, id: RequestId, saved: bool, stored: AttemptPhase, error: Failure): Ownership
    requires id in o.resumes && id in o.attempts
  {
    var o' := StoreAttempt(o, id, stored);
    Complete(o', id, ResumeResult(Some(if saved then AttemptFailedBeforeStart else AttemptUnknown), false),
             Some(if saved then error else ErrUnknown), false)
  }

  function CallResume(o: Ownership, id: RequestId, outcome: StartOutcome): Ownership
    requires id in o.resumes
  {
    SetResume(o, id, o.resumes[id].(start := outcome, phase := ResumeReturned))
      .(resumed := o.resumed + multiset{id})
  }

  /** No child handle came back, yet one may exist: the reservation is kept. */
  function StrandResume(o: Ownership, id: RequestId, stored: AttemptPhase): Ownership
    requires id in o.resumes && id in o.attempts
  {
    Complete(StoreAttempt(o, id, stored), id, ResumeResult(Some(AttemptUnknown), false), Some(ErrUnknown), true)
  }

  function TransferResume(o: Ownership, id: RequestId): Ownership
    requires id in o.resumes && o.resumes[id].start.Child?
  {
    var t := o.resumes[id];
    var snapshot := t.snapshot.Started(t.start.pid);
    SetResume(o, id, t.(snapshot := snapshot, attached := true,
                                result := ResumeResult(Some(AttemptReserved), true), phase := ResumeSettling))
            .(pending := o.pending - 1, active := o.active + 1,
              runs := o.runs[t.snapshot.run := OwnedRun(snapshot, false, false, false, None, None, Unpublished)])
  }

  /** Started was journaled. */
  function MarkStarted(o: Ownership, id: RequestId): Ownership
    requires id in o.resumes && id in o.attempts
  {
    var t := o.resumes[id];
    SetResume(StoreAttempt(o, id, AttemptStarted), id,
                      t.(result := t.result.(phase := Some(AttemptStarted))))
  }

  predicate CleanStart(t: ResumeTicket)
  {
    t.start.Child? && !t.start.withError && t.start.pid > 0
  }

  /** The child was confirmed as the same native conversation and that result is
      durable, or its publication is uncertain. */
  function SettleResume(o: Ownership, id: RequestId, confirmed: bool, stored: AttemptPhase): Ownership
    requires id in o.resumes && id in o.attempts && o.resumes[id].snapshot.run in o.runs
  {
    var t := o.resumes[id];
    var run := o.runs[t.snapshot.run];
    var run' := if confirmed then run.(published := true) else MarkRunUncertain(run);
    var o' := StoreAttempt(o, id, if confirmed then AttemptConfirmed else stored);
    SetResume(o', id, t.(confirmed := Some(confirmed), phase := ResumeCompleting(confirmed))).(runs := o.runs[t.snapshot.run := run'])
  }

  function CompleteResume(o: Ownership, id: RequestId): Ownership
    requires id in o.resumes && o.resumes[id].phase.ResumeCompleting? && o.resumes[id].snapshot.run in o.runs
  {
    var t := o.resumes[id];
    var ok := t.phase.confirmed;
    var run := o.runs[t.snapshot.run];
    Complete(o, id, ResumeResult(Some(if ok then AttemptConfirmed else AttemptUnknown), true),
             if ok then None else Some(ErrUnknown), false)
      .(runs := o.runs[t.snapshot.run := run.(phase := Waiting)])
  }

  // ---- Steps --------------------------------------------------------------

  datatype ResumeStep =
    | DoAdmitResume(resume: ResumeRequest)
    | DoJoinResume(resume: ResumeRequest)
    | DoLeaveResume(id: RequestId)
    | DoFailResume(id: RequestId, error: Failure)
    | DoAnswerStored(id: RequestId)
    | DoCommitResume(id: RequestId, run: RunId)
    | DoFailReservation(id: RequestId, committed: bool, error: Failure)
    | DoCreateAttempt(id: RequestId)
    | DoFailBeforeStart(id: RequestId, saved: bool, stored: AttemptPhase, error: Failure)
    | DoCallResume(id: RequestId, outcome: StartOutcome)
    | DoStrandResume(id: RequestId, stored: AttemptPhase)
    | DoTransferResume(id: RequestId)
    | DoMarkStarted(id: RequestId)
    | DoSettleResume(id: RequestId, confirmed: bool, stored: AttemptPhase)
    | DoCompleteResume(id: RequestId)

  function RequestOf(step: ResumeStep): RequestId
  {
    if step.DoAdmitResume? || step.DoJoinResume? then step.resume.id else step.id
  }

  predicate ResumeIn(o: Ownership, id: RequestId, phase: ResumePhase) { id in o.resumes && o.resumes[id].phase == phase }

  predicate ResumeEnabled(s: State, step: ResumeStep)
  {
    match step
    case DoAdmitResume(request) => AdmitResumeReply(s, request) == AdmitNew
    case DoJoinResume(request) => AdmitResumeReply(s, request) == JoinExisting
    case DoLeaveResume(id) => id in s.own.resumes && s.own.resumes[id].waiters > 0
    case DoFailResume(id, _) => ResumeIn(s.own, id, ResumePreparing)
    case DoAnswerStored(id) => (ResumeIn(s.own, id, ResumePreparing) || ResumeIn(s.own, id, ResumeReserving)) && id in s.own.attempts
    case DoCommitResume(id, run) =>
      ResumeIn(s.own, id, ResumePreparing) && !s.own.resumes[id].cancelled && !AdmissionClosed(s) && run !in s.own.drawn
    case DoFailReservation(id, _, _) => ResumeIn(s.own, id, ResumeReserving)
    case DoCreateAttempt(id) => ResumeIn(s.own, id, ResumeReserving) && id !in s.own.attempts
    case DoFailBeforeStart(id, saved, stored, _) =>
      (ResumeIn(s.own, id, ResumeReserved) || (ResumeIn(s.own, id, ResumeReturned) && s.own.resumes[id].start == Refused(false)))
      && id in s.own.attempts && (saved ==> stored == AttemptFailedBeforeStart)
    case DoCallResume(id, outcome) => ResumeIn(s.own, id, ResumeReserved) && !outcome.NotCalled?
    case DoStrandResume(id, _) => ResumeIn(s.own, id, ResumeReturned) && s.own.resumes[id].start.PossibleChild() && id in s.own.attempts
    case DoTransferResume(id) => ResumeIn(s.own, id, ResumeReturned) && s.own.resumes[id].start.Child?
    case DoMarkStarted(id) => ResumeIn(s.own, id, ResumeSettling) && CleanStart(s.own.resumes[id]) && id in s.own.attempts
    case DoSettleResume(id, confirmed, _) =>
      ResumeIn(s.own, id, ResumeSettling) && id in s.own.attempts && s.own.resumes[id].snapshot.run in s.own.runs
      && (confirmed ==> CleanStart(s.own.resumes[id]) && s.own.resumes[id].result.phase == Some(AttemptStarted))
    case DoCompleteResume(id) => id in s.own.resumes && s.own.resumes[id].phase.ResumeCompleting? && s.own.resumes[id].snapshot.run in s.own.runs
  }

  predicate ResumeSignals(step: ResumeStep) { !step.DoJoinResume? && !step.DoLeaveResume? && !step.DoCallResume? }

  function ResumeOwnership(s: State, step: ResumeStep): Ownership
    requires ResumeEnabled(s, step)
  {
    match step
    case DoAdmitResume(request) => AdmitResume(s.own, request)
    case DoJoinResume(request) => JoinResume(s.own, request.id)
    case DoLeaveResume(id) => LeaveResume(s.own, id)
    case DoFailResume(id, error) => FailResume(s.own, id, error)
    case DoAnswerStored(id) => AnswerStored(s.own, id)
    case DoCommitResume(id, run) => CommitResume(s.epoch, s.own, id, run)
    case DoFailReservation(id, committed, error) => FailReservation(s.epoch, s.own, id, committed, error)
    case DoCreateAttempt(id) => CreateAttempt(s.epoch, s.own, id)
    case DoFailBeforeStart(id, saved, stored, error) => FailBeforeStart(s.own, id, saved, stored, error)
    case DoCallResume(id, outcome) => CallResume(s.own, id, outcome)
    case DoStrandResume(id, stored) => StrandResume(s.own, id, stored)
    case DoTransferResume(id) => TransferResume(s.own, id)
    case DoMarkStarted(id) => MarkStarted(s.own, id)
    case DoSettleResume(id, confirmed, stored) => SettleResume(s.own, id, confirmed, stored)
    case DoCompleteResume(id) => CompleteResume(s.own, id)
  }

  function ResumeApply(s: State, step: ResumeStep): State
    requires ResumeEnabled(s, step)
  {
    s.(own := ResumeOwnership(s, step), gate := if ResumeSignals(step) then s.gate.Bump() else s.gate)
  }
}
