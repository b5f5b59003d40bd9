/** Lock sections and port calls of update deferral, start-up and clean publication. */
module LifecycleSteps {
  import opened Options
  import opened RuntimeState
  import opened ShutdownSteps

  // ---- Update deferral ----------------------------------------------------

  /** None of the eight blockers of an update is present. */
  predicate Quiescent(s: State)
  {
    var b := BindingOf(s, 0);
    b.totalRuns == 0 && b.pendingLaunches == 0 && b.pendingControls == 0 && b.pendingReconciliations == 0
    && !(s.life.starting || s.life.pending != 0)
    && !HasUncertain(s)
    && !(s.gate.disabled || s.life.preparing || s.life.committed)
    && !s.gate.Spent()
  }

  predicate MetadataBusy(s: State)
  {
    s.gate.disabled || s.life.starting || s.life.pending != 0 || s.life.preparing || s.life.committed || s.life.uncertain
  }

  datatype AttemptAdmission = RefuseAttempt(error: Failure) | EmptyPreview | AdmitAttempt

  function AttemptReply(s: State): AttemptAdmission
  {
    if !s.life.bound then RefuseAttempt(ErrUnsupported)
    else if s.gate.Spent() then RefuseAttempt(ErrLimit)
    else if MetadataBusy(s) then RefuseAttempt(ErrBusy)
    else if s.life.deferral.None? && Quiescent(s) then EmptyPreview
    else AdmitAttempt
  }

  function OfferEmptyPreview(s: State, id: PreviewId): Lifecycle
  {
    s.life.(preview := Some(Preview(BindingOf(s, id), {})))
  }

  /** A retarget keeps the start and the notice of a continuous deferral. */
  function Candidate(l: Lifecycle, target: TargetId, now: int): Deferral
  {
    (if l.deferral.Some? then l.deferral.value.(target := target) else Deferral(target, now, false)).Notice(now)
  }

  function BeginUpdate(l: Lifecycle, ref: Ref, candidate: Deferral, attempt: Option<PreviewId>): Lifecycle
  {
    l.(updates := l.updates[ref := UpdateTicket(candidate, attempt, false)], pending := l.pending + 1)
  }

  datatype Persisted = PersistedOk | PersistFailed | PersistUncertain

  function FinishUpdate(l: Lifecycle, ref: Ref, result: Persisted): Lifecycle
    requires ref in l.updates
  {
    var t := l.updates[ref];
    l.(updates := l.updates[ref := t.(settled := true)], pending := l.pending - 1,
       deferral := if result == PersistedOk then Some(t.candidate) else l.deferral,
       uncertain := l.uncertain || result == PersistUncertain)
  }

  datatype NoticeAdmission = RefuseNotice(error: Failure) | NothingDue | AdmitNotice

  function NoticeReply(s: State, now: int): NoticeAdmission
  {
    if !s.life.bound then RefuseNotice(ErrUnsupported)
    else if s.life.deferral.None? || s.life.deferral.value.notified || !s.life.deferral.value.Overdue(now) then NothingDue
    else if s.gate.Spent() then RefuseNotice(ErrLimit)
    else if MetadataBusy(s) then RefuseNotice(ErrBusy)
    else AdmitNotice
  }

  // ---- Start-up, disabling, clean publication ------------------------------

  predicate MayInitialize(s: State)
  {
    !(s.life.starting || s.life.bound || s.gate.disabled || s.own.index != map[] || s.own.resumes != map[]
      || s.life.preparing || s.life.committed)
  }

  function FinishInitialize(l: Lifecycle, result: Persisted, restored: Option<Deferral>): Lifecycle
  {
    var ok := result == PersistedOk;
    l.(starting := false, bound := l.bound || ok, deferral := if ok then restored else l.deferral,
       uncertain := l.uncertain || result == PersistUncertain)
  }

  function CleanReply(s: State): Option<Failure>
  {
    if !s.life.bound then Some(ErrUnsupported)
    else if !s.gate.disabled || s.own.pending + s.own.active + s.ctl.pending + s.life.pending != 0 then Some(ErrBusy)
    else if HasUncertain(s) then Some(ErrUnknown)
    else None
  }

  // ---- Steps --------------------------------------------------------------

  datatype LifecycleStep =
    | DoOfferEmptyPreview(preview: PreviewId)
    | DoBeginAttempt(ref: Ref, target: TargetId, now: int, preview: PreviewId)
    | DoBeginNotice(ref: Ref, now: int)
    | DoFinishUpdate(ref: Ref, result: Persisted)
    | DoBeginInitialize
    | DoFinishInitialize(result: Persisted, restored: Option<Deferral>)
    | DoDisableLaunches
    | DoPassCleanCheck
    | DoRecordClean

  predicate LifecycleEnabled(s: State, step: LifecycleStep)
  {
    match step
    case DoOfferEmptyPreview(id) => id !in s.life.shutdowns && AttemptReply(s) == EmptyPreview
    case DoBeginAttempt(ref, _, _, id) => ref !in s.life.updates && id !in s.life.shutdowns && AttemptReply(s) == AdmitAttempt
    case DoBeginNotice(ref, now) => ref !in s.life.updates && NoticeReply(s, now) == AdmitNotice
    case DoFinishUpdate(ref, _) => ref in s.life.updates && !s.life.updates[ref].settled
    case DoBeginInitialize => MayInitialize(s)
    case DoFinishInitialize(_, _) => s.life.starting
    case DoDisableLaunches => !s.gate.disabled
    case DoPassCleanCheck => CleanReply(s).None?
    case DoRecordClean => s.life.cleanChecked
  }

  predicate LifecycleSignals(step: LifecycleStep)
  {
    !(step.DoOfferEmptyPreview? || step.DoPassCleanCheck? || step.DoRecordClean?)
  }

  predicate LifecycleDisables(step: LifecycleStep)
  {
    match step
    case DoFinishUpdate(_, result) => result == PersistUncertain
    case DoFinishInitialize(result, _) => result != PersistedOk
    case DoDisableLaunches => true
    case _ => false
  }

  function LifecycleGate(g: Gate, step: LifecycleStep): Gate
  {
    var g' := g.(disabled := g.disabled || LifecycleDisables(step));
    if LifecycleSignals(step) then g'.Bump() else g'
  }

  function LifecycleLifecycle(s: State, step: LifecycleStep): Lifecycle
    requires LifecycleEnabled(s, step)
  {
    match step
    case DoOfferEmptyPreview(id) => OfferEmptyPreview(s, id)
    case DoBeginAttempt(ref, target, now, id) => BeginUpdate(s.life, ref, Candidate(s.life, target, now), Some(id))
    case DoBeginNotice(ref, now) => BeginUpdate(s.life, ref, s.life.deferral.value.Notice(now), None)
    case DoFinishUpdate(ref, result) =>
      var l := FinishUpdate(s.life, ref, result);
      var s' := s.(life := l, gate := LifecycleGate(s.gate, step));
      var offer := s.life.updates[ref].attempt.Some? && result == PersistedOk && Quiescent(s');
      l.(preview := if offer then Some(Preview(BindingOf(s', s.life.updates[ref].attempt.value), {})) else l.preview)
    case DoBeginInitialize => s.life.(starting := true)
    case DoFinishInitialize(result, restored) => FinishInitialize(s.life, result, restored)
    case DoDisableLaunches => s.life
    case DoPassCleanCheck => s.life.(cleanChecked := true)
    case DoRecordClean => s.life.(cleaned := s.life.cleaned + multiset{s.epoch})
  }

  function LifecycleApply(s: State, step: LifecycleStep): State
    requires LifecycleEnabled(s, step)
  {
    s.(life := LifecycleLifecycle(s, step), gate := LifecycleGate(s.gate, step))
  }
}
