/** Lock sections and port calls of an explicit shutdown decision. */
module ShutdownSteps {
  import opened Options
  import opened RuntimeState

  // ---- Preview ------------------------------------------------------------

  function PreviewReply(s: State): Option<Failure>
  {
    if s.life.preparing || s.life.committed || s.life.starting || s.life.pending > 0 || s.life.uncertain then Some(ErrBusy)
    else if s.gate.Spent() then Some(ErrLimit)
    else None
  }

  function PreviewShutdown(s: State, id: PreviewId): Lifecycle
  {
    s.life.(preview := Some(Preview(BindingOf(s, id), ShutdownRoster(s.own))))
  }

  function CancelReply(l: Lifecycle, binding: Binding): Option<Failure>
  {
    if l.preview.None? || l.preview.value.binding != binding || l.preparing || l.committed || l.uncertain
    then Some(ErrChanged) else None
  }

  // ---- Confirmation -------------------------------------------------------

  datatype ConfirmAdmission = RefuseConfirm(error: Failure) | Await | AdmitConfirm

  function ConfirmReply(s: State, binding: Binding, acknowledged: bool, purpose: Purpose): ConfirmAdmission
  {
    var l := s.life;
    if !BindingInRange(binding) || !acknowledged then RefuseConfirm(ErrInvalid)
    else if purpose.Update? && !EmptyBinding(binding) then RefuseConfirm(ErrInvalid)
    else if binding.preview in l.shutdowns then
      var t := l.shutdowns[binding.preview];
      if t.binding != binding || t.purpose != purpose then RefuseConfirm(ErrChanged) else Await
    else if l.preview.None? || l.preview.value.binding != binding then RefuseConfirm(ErrChanged)
    else if !BindingInRange(BindingOf(s, binding.preview)) then RefuseConfirm(ErrInvalid)
    else if !Confirms(binding, BindingOf(s, binding.preview)) then RefuseConfirm(ErrChanged)
    else if s.gate.Spent() then RefuseConfirm(ErrLimit)
    else if l.preparing || l.committed || l.starting || l.pending > 0 || HasUncertain(s) then RefuseConfirm(ErrBusy)
    else if purpose.Update? && !l.bound then RefuseConfirm(ErrUnsupported)
    else if purpose.Update? && s.gate.disabled then RefuseConfirm(ErrBusy)
    else if purpose.Update? && l.deferral.Some? && l.deferral.value.target != purpose.target then RefuseConfirm(ErrChanged)
    else if exists x :: x in l.preview.value.runs && x.run !in s.own.runs then RefuseConfirm(ErrChanged)
    else if |l.shutdowns| >= MAX_LAUNCH_REQUESTS then RefuseConfirm(ErrLimit)
    else AdmitConfirm
  }

  /** `reservation` is the revision right after this admission's own change. */
  function ConfirmShutdown(l: Lifecycle, purpose: Purpose, reservation: nat): Lifecycle
    requires l.preview.Some?
  {
    var p := l.preview.value;
    l.(preparing := true, pending := l.pending + 1,
       shutdowns := l.shutdowns[p.binding.preview :=
         ShutdownTicket(p.binding, purpose, Ids(p.runs), ShutdownPending, 0, None, false, map[], None, Revalidating(reservation))])
  }

  function SetShutdown(l: Lifecycle, p: PreviewId, t: ShutdownTicket): Lifecycle { l.(shutdowns := l.shutdowns[p := t]) }

  /** The shared finishing section of a decision. */
  function FinishShutdown(l: Lifecycle, p: PreviewId, outcome: ShutdownOutcome, closed: nat, error: Option<Failure>, committed: bool): Lifecycle
    requires p in l.shutdowns
  {
    var t := l.shutdowns[p];
    SetShutdown(l, p, t.(outcome := outcome, closedTerminals := closed, error := error, phase := Settled))
      .(preparing := false,
        uncertain := l.uncertain || outcome == ShutdownUnknown,
        committed := l.committed || committed,
        deferral := if t.purpose.Update? && error.None? && outcome == Draining then None else l.deferral,
        pending := l.pending - 1)
  }

  /** Second look before the durable reservation. */
  function CheckShutdown(l: Lifecycle, p: PreviewId, revision: nat, doubtful: bool): Lifecycle
    requires p in l.shutdowns && l.shutdowns[p].phase.Revalidating?
  {
    var t := l.shutdowns[p];
    SetShutdown(l, p, t.(phase := if revision != t.phase.reservation || doubtful then Refusing else Checked))
  }

  /** The reservation is durable: the decision commits before any terminal closes. */
  function CommitShutdown(epoch: nat, l: Lifecycle, p: PreviewId): Lifecycle
    requires p in l.shutdowns
  {
    var t := l.shutdowns[p];
    SetShutdown(l, p, t.(committed := true, phase := Closing(t.children, 0, false)))
      .(committed := true, decided := l.decided + multiset{(epoch, p)})
  }

  function CloseTerminal(l: Lifecycle, p: PreviewId, run: RunId, ok: bool): Lifecycle
    requires p in l.shutdowns && l.shutdowns[p].phase.Closing?
  {
    var t := l.shutdowns[p];
    var c := t.phase;
    SetShutdown(l, p, t.(closes := t.closes[run := ok],
                         phase := Closing(c.todo - {run}, if ok then c.closed + 1 else c.closed, c.failed || !ok)))
      .(closed := l.closed + multiset{run})
  }

  /** Every close returned and the outcome was offered to the journal. */
  function SettleShutdown(l: Lifecycle, p: PreviewId, saved: bool): Lifecycle
    requires p in l.shutdowns && l.shutdowns[p].phase.Closing?
  {
    var c := l.shutdowns[p].phase;
    var good := saved && !c.failed;
    FinishShutdown(SetShutdown(l, p, l.shutdowns[p].(saved := Some(saved))), p,
                   if good then Draining else ShutdownUnknown, c.closed, if good then None else Some(ErrUnknown), true)
  }

  // ---- Steps --------------------------------------------------------------

  datatype ShutdownStep =
    | DoPreviewShutdown(preview: PreviewId)
    | DoCancelShutdown(binding: Binding)
    | DoConfirmShutdown(binding: Binding, purpose: Purpose)
    | DoRefuseShutdown(preview: PreviewId, error: Failure)
    | DoCheckShutdown(preview: PreviewId)
    | DoDoubtShutdown(preview: PreviewId)
    | DoCommitShutdown(preview: PreviewId)
    | DoCloseTerminal(preview: PreviewId, run: RunId, ok: bool)
    | DoSettleShutdown(preview: PreviewId, saved: bool)

  predicate ShutdownEnabled(s: State, step: ShutdownStep)
  {
    var d := s.life.shutdowns;
    match step
    case DoPreviewShutdown(id) => id !in d && PreviewReply(s).None?
    case DoCancelShutdown(binding) => CancelReply(s.life, binding).None?
    case DoConfirmShutdown(binding, purpose) => ConfirmReply(s, binding, true, purpose) == AdmitConfirm
    case DoRefuseShutdown(p, _) => p in d && (d[p].phase.Revalidating? || d[p].phase.Refusing? || d[p].phase.Checked?)
    case DoCheckShutdown(p) => p in d && d[p].phase.Revalidating?
    case DoDoubtShutdown(p) => p in d && d[p].phase.Checked?
    case DoCommitShutdown(p) => p in d && d[p].phase.Checked?
    case DoCloseTerminal(p, run, _) => p in d && d[p].phase.Closing? && run in d[p].phase.todo
    case DoSettleShutdown(p, _) => p in d && d[p].phase.Closing? && d[p].phase.todo == {}
  }

  predicate ShutdownSignals(step: ShutdownStep)
  {
    !(step.DoPreviewShutdown? || step.DoCancelShutdown? || step.DoCheckShutdown? || step.DoCloseTerminal?)
  }

  /** Doubt about the reservation and a committed decision both disable launches. */
  predicate ShutdownDisables(step: ShutdownStep)
  {
    step.DoDoubtShutdown? || step.DoCommitShutdown? || step.DoSettleShutdown?
  }

  function ShutdownLifecycle(s: State, step: ShutdownStep): Lifecycle
    requires ShutdownEnabled(s, step)
  {
    match step
    case DoPreviewShutdown(id) => PreviewShutdown(s, id)
    case DoCancelShutdown(_) => s.life.(preview := None)
    case DoConfirmShutdown(_, purpose) => ConfirmShutdown(s.life, purpose, s.gate.Bump().revision)
    case DoRefuseShutdown(p, error) => FinishShutdown(s.life, p, ShutdownRejected, 0, Some(error), false)
    case DoCheckShutdown(p) => CheckShutdown(s.life, p, s.gate.revision, HasUncertain(s))
    case DoDoubtShutdown(p) => FinishShutdown(s.life, p, ShutdownUnknown, 0, Some(ErrUnknown), false)
    case DoCommitShutdown(p) => CommitShutdown(s.epoch, s.life, p)
    case DoCloseTerminal(p, run, ok) => CloseTerminal(s.life, p, run, ok)
    case DoSettleShutdown(p, saved) => SettleShutdown(s.life, p, saved)
  }

  function ShutdownGate(g: Gate, step: ShutdownStep): Gate
  {
    var g' := g.(disabled := g.disabled || ShutdownDisables(step));
    if ShutdownSignals(step) then g'.Bump() else g'
  }

  function ShutdownApply(s: State, step: ShutdownStep): State
    requires ShutdownEnabled(s, step)
  {
    s.(life := ShutdownLifecycle(s, step), gate := ShutdownGate(s.gate, step))
  }
}
