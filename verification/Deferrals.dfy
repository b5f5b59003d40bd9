/** A deferred update is one continuous deferral until a handoff for its target
    retires it, and an empty preview offered by an attempt can be confirmed. */
module Deferrals {
  import opened Options
  import opened RuntimeState
  import opened LaunchSteps
  import opened ResumeSteps
  import opened ControlSteps
  import opened ShutdownSteps
  import opened LifecycleSteps
  import opened RuntimeMachine
  import opened OwnershipInvariants
  import opened ControlInvariants
  import opened LifecycleInvariants
  import opened RuntimeProofs
  import opened ShutdownProofs
  import opened Receipts
  import opened Counting

  /** The same deferral later: a retarget keeps its start and its notice. */
  predicate Continues(d: Deferral, d': Deferral)
  {
    d'.started == d.started && (d.notified ==> d'.notified)
  }

  /** Retired for good: launches are disabled and no coordinator may bring it back. */
  ghost predicate Retired(g: Gate, l: Lifecycle)
  {
    l.deferral.None? && g.disabled && l.bound && !l.starting && forall ref :: ref in l.updates ==> l.updates[ref].settled
  }

  /** The step by which a durable handoff for this target retires it. */
  predicate RetiredBy(s: State, step: Step, target: TargetId)
    requires Enabled(s, step)
  {
    step.Shutting? && step.shutdown.DoSettleShutdown? && step.shutdown.saved
    && s.life.shutdowns[step.shutdown.preview].purpose == Update(target)
    && Apply(s, step).life.shutdowns[step.shutdown.preview].outcome == Draining
  }

  lemma {:induction false} MaintenanceContinues(s: State, step: LifecycleStep)
    requires Deferred(s.life) && Coordinated(s.gate, s.life) && LifecycleEnabled(s, step) && s.life.deferral.Some?
    ensures var d' := LifecycleLifecycle(s, step).deferral; d'.Some? && Continues(s.life.deferral.value, d'.value)
  {
    hide BindingOf, HasUncertain, Quiescent, CleanReply, AttemptReply, NoticeReply;
  }

  lemma {:induction false} ShutdownContinues(s: State, step: ShutdownStep)
    requires Deferred(s.life) && Coordinated(s.gate, s.life) && Shapes(s.life) && ShutdownEnabled(s, step) && s.life.deferral.Some?
    ensures ShutdownLifecycle(s, step).deferral == s.life.deferral
            || (RetiredBy(s, Shutting(step), s.life.deferral.value.target) && Retired(ShutdownGate(s.gate, step), ShutdownLifecycle(s, step)))
  {
    hide BindingOf, HasUncertain, PreviewReply, CancelReply, ConfirmReply;
    if step.DoSettleShutdown? {
      SettlingRetires(s, step.preview, step.saved);
    } else {
      hide Deferred, Coordinated, ShutdownShape, RetiredBy, Retired, ShutdownGate;
    }
  }

  lemma {:induction false} SettlingRetires(s: State, p: PreviewId, saved: bool)
    requires Deferred(s.life) && Coordinated(s.gate, s.life) && Shapes(s.life) && ShutdownEnabled(s, DoSettleShutdown(p, saved)) && s.life.deferral.Some?
    ensures var step := DoSettleShutdown(p, saved);
            ShutdownLifecycle(s, step).deferral == s.life.deferral
            || (RetiredBy(s, Shutting(step), s.life.deferral.value.target) && Retired(ShutdownGate(s.gate, step), ShutdownLifecycle(s, step)))
  {
    hide BindingOf, HasUncertain;
    assert Unsettled(s.life.shutdowns[p]) && ShutdownShape(s.life.shutdowns[p]);
    CountZero(s.life.shutdowns, Unsettled);
    CountZero(s.life.updates, UnsettledUpdate);
  }

  /** One step either continues a deferral or retires it by a handoff that was
      durably completed for exactly its target. */
  lemma {:induction false} DeferralStep(s: State, step: Step)
    requires Inv(s) && Enabled(s, step) && !step.Crash? && s.life.deferral.Some?
    ensures var d, d' := s.life.deferral.value, Apply(s, step).life.deferral;
            if d'.Some? then Continues(d, d'.value)
            else RetiredBy(s, step, d.target) && Retired(Apply(s, step).gate, Apply(s, step).life)
  {
    hide LaunchEnabled, ResumeEnabled, ControlEnabled, ShutdownEnabled, LifecycleEnabled, OwnInv, CtlInv;
    hide LaunchOwnership, ResumeOwnership, ControlControls, ShutdownLifecycle, LifecycleLifecycle, ShutdownGate, LifecycleGate;
    hide RetiredBy, Deferred, Coordinated, Shapes, Frozen, TerminalsCounted, DecisionsCounted, CleanPublished;
    match step
    case Shutting(d) => ShutdownContinues(s, d);
    case Maintaining(u) => MaintenanceContinues(s, u);
    case _ =>
  }

  lemma {:induction false} ShutdownKeepsRetired(s: State, step: ShutdownStep)
    requires ShutdownEnabled(s, step) && Retired(s.gate, s.life)
    ensures Retired(ShutdownGate(s.gate, step), ShutdownLifecycle(s, step))
  {
    hide BindingOf, HasUncertain, PreviewReply, CancelReply, ConfirmReply;
  }

  lemma {:induction false} MaintenanceKeepsRetired(s: State, step: LifecycleStep)
    requires LifecycleEnabled(s, step) && Retired(s.gate, s.life)
    ensures Retired(LifecycleGate(s.gate, step), LifecycleLifecycle(s, step))
  {
    hide BindingOf, HasUncertain, Quiescent, CleanReply;
  }

  lemma {:induction false} RetiredStays(s: State, step: Step)
    requires Enabled(s, step) && !step.Crash? && Retired(s.gate, s.life)
    ensures Retired(Apply(s, step).gate, Apply(s, step).life)
  {
    hide LaunchEnabled, ResumeEnabled, ControlEnabled, ShutdownEnabled, LifecycleEnabled;
    hide LaunchOwnership, ResumeOwnership, ControlControls, ShutdownLifecycle, LifecycleLifecycle, ShutdownGate, LifecycleGate;
    match step
    case Shutting(d) => ShutdownKeepsRetired(s, d);
    case Maintaining(u) => MaintenanceKeepsRetired(s, u);
    case _ =>
  }

  lemma {:induction false} RetiredForGood(s: State, steps: seq<Step>)
    requires Legal(s, steps) && NoCrash(steps) && Retired(s.gate, s.life)
    ensures Retired(After(s, steps).gate, After(s, steps).life)
    decreases |steps|
  {
    hide Enabled, Apply, Retired;
    if steps != [] {
      RetiredStays(s, steps[0]);
      RetiredForGood(Apply(s, steps[0]), steps[1..]);
    }
  }

  /** Over the rest of an epoch a deferral keeps its start and its notice through
      every retarget, unless a handoff retired it, and then it stays retired. */
  lemma {:induction false} DeferralIsContinuous(s: State, steps: seq<Step>)
    requires Inv(s) && Legal(s, steps) && NoCrash(steps) && s.life.deferral.Some?
    ensures var d' := After(s, steps).life.deferral;
            if d'.Some? then Continues(s.life.deferral.value, d'.value) else Retired(After(s, steps).gate, After(s, steps).life)
    decreases |steps|
  {
    hide Inv, Enabled, Apply, Retired, RetiredBy;
    if steps != [] {
      DeferralStep(s, steps[0]);
      StepKeeps(s, steps[0]);
      if Apply(s, steps[0]).life.deferral.Some? {
        DeferralIsContinuous(Apply(s, steps[0]), steps[1..]);
      } else {
        RetiredForGood(Apply(s, steps[0]), steps[1..]);
        RetiredHasNone(After(s, steps));
      }
    }
  }

  lemma {:induction false} RetiredHasNone(s: State)
    requires Retired(s.gate, s.life)
    ensures s.life.deferral.None?
  {
  }

  // ---- Empty previews ---------------------------------------------------------------

  /** In a quiescent daemon the empty preview is exact. */
  lemma {:induction false} QuiescentIsEmpty(s: State, id: PreviewId)
    requires Quiescent(s)
    ensures BindingOf(s, id).preview == id && EmptyBinding(BindingOf(s, id)) && Confirms(BindingOf(s, id), BindingOf(s, id))
    ensures s.life.pending == 0 && !s.life.starting && !s.life.preparing && !s.life.committed && !s.gate.disabled
    ensures !HasUncertain(s) && !s.gate.Spent()
  {
    assert BindingOf(s, id) == BindingOf(s, 0).(preview := id);
    assert |ShutdownRoster(s.own)| == 0;
  }

  lemma {:induction false} EmptyPreviewConfirms(s: State, id: PreviewId, target: TargetId)
    requires Quiescent(s) && s.life.bound && s.life.preview == Some(Preview(BindingOf(s, id), {})) && id !in s.life.shutdowns
    requires s.life.deferral.Some? ==> s.life.deferral.value.target == target
    ensures ConfirmReply(s, BindingOf(s, id), true, Update(target)) ==
            (if |s.life.shutdowns| >= MAX_LAUNCH_REQUESTS then RefuseConfirm(ErrLimit) else AdmitConfirm)
  {
    hide BindingOf, HasUncertain, Quiescent;
    QuiescentIsEmpty(s, id);
  }

  /** What an update attempt offers: the step, the preview and the target. */
  predicate Offers(s: State, step: LifecycleStep, id: PreviewId, target: TargetId)
    requires LifecycleEnabled(s, step)
  {
    step == DoOfferEmptyPreview(id)
    || (step.DoFinishUpdate? && step.result == PersistedOk && s.life.updates[step.ref].attempt == Some(id)
        && s.life.updates[step.ref].candidate.target == target && Quiescent(LifecycleApply(s, step)))
  }

  /** The empty preview an update attempt returns can be confirmed at once as a
      handoff for its target: only the bound on decisions can still refuse it. */
  lemma {:induction false} OfferIsConfirmable(s: State, step: LifecycleStep, id: PreviewId, target: TargetId)
    requires LifecycleEnabled(s, step) && Offers(s, step, id, target) && s.life.bound && id !in s.life.shutdowns
    ensures var s' := LifecycleApply(s, step);
            ConfirmReply(s', BindingOf(s', id), true, Update(target)) ==
            (if |s.life.shutdowns| >= MAX_LAUNCH_REQUESTS then RefuseConfirm(ErrLimit) else AdmitConfirm)
  {
    hide ConfirmReply;
    var s' := LifecycleApply(s, step);
    assert s'.own == s.own && s'.ctl == s.ctl;
    assert Quiescent(s');
    assert s'.life.preview == Some(Preview(BindingOf(s', id), {}));
    EmptyPreviewConfirms(s', id, target);
  }
}
