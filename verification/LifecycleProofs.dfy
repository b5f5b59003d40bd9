/** Update, start-up and clean-publication steps keep the lifecycle invariant. */
module LifecycleProofs {
  import opened Options
  import opened RuntimeState
  import opened ShutdownSteps
  import opened LifecycleSteps
  import opened OwnershipInvariants
  import opened ControlInvariants
  import opened LifecycleInvariants
  import opened FrozenProofs
  import opened ShutdownProofs
  import opened Counting

  /** The flags and the deferral move; decisions and histories stay. */
  ghost predicate FlagMove(g: Gate, g': Gate, l: Lifecycle, l': Lifecycle)
  {
    l' == l.(bound := l'.bound, starting := l'.starting, uncertain := l'.uncertain, pending := l'.pending, preview := l'.preview,
             updates := l'.updates, deferral := l'.deferral)
    && (l.bound ==> l'.bound) && (l.uncertain ==> l'.uncertain) && (l'.uncertain && !l.uncertain ==> g'.disabled)
    && (l'.starting ==> !l'.preparing && !l'.bound) && PreviewShape(l'.preview)
    && (g.disabled ==> g'.disabled) && (g'.exhausted ==> g'.disabled) && g'.revision <= MAX_REVISION
    && l'.pending == l.pending - Count(l.updates, UnsettledUpdate) + Count(l'.updates, UnsettledUpdate) <= 1
  }

  lemma {:induction false} FlagMoveKeeps(s: State, s': State)
    requires LifeInv(s) && s' == s.(life := s'.life, gate := s'.gate)
    requires FlagMove(s.gate, s'.gate, s.life, s'.life) && Deferred(s'.life)
    ensures LifeInv(s')
  {
  }

  lemma {:induction false} BeginMoves(g: Gate, g': Gate, l: Lifecycle, ref: Ref, candidate: Deferral, attempt: Option<PreviewId>)
    requires Coordinated(g, l) && Shapes(l) && Deferred(l) && Later(g, g') && ref !in l.updates && l.pending == 0 && l.bound
    requires l.deferral.Some? ==> candidate.started == l.deferral.value.started && (l.deferral.value.notified ==> candidate.notified)
    ensures FlagMove(g, g', l, BeginUpdate(l, ref, candidate, attempt)) && Deferred(BeginUpdate(l, ref, candidate, attempt))
  {
    var l' := BeginUpdate(l, ref, candidate, attempt);
    CountUpdate(l.updates, UnsettledUpdate, ref, l'.updates[ref]);
    CountZero(l.updates, UnsettledUpdate);
    CountZero(l.shutdowns, Unsettled);
  }

  lemma {:induction false} FinishMoves(g: Gate, g': Gate, l: Lifecycle, ref: Ref, result: Persisted, preview: Option<Preview>)
    requires Coordinated(g, l) && Deferred(l) && ref in l.updates && UnsettledUpdate(l.updates[ref]) && PreviewShape(preview)
    requires g' == g.(disabled := g.disabled || result == PersistUncertain).Bump()
    ensures FlagMove(g, g', l, FinishUpdate(l, ref, result).(preview := preview)) && Deferred(FinishUpdate(l, ref, result).(preview := preview))
  {
    var l' := FinishUpdate(l, ref, result);
    CountUpdate(l.updates, UnsettledUpdate, ref, l'.updates[ref]);
    CountZero(l.updates, UnsettledUpdate);
    CountZero(l.shutdowns, Unsettled);
    CountZero(l'.updates, UnsettledUpdate);
  }

  lemma {:induction false} InitializeMoves(g: Gate, g': Gate, l: Lifecycle, result: Persisted, restored: Option<Deferral>)
    requires Coordinated(g, l) && Shapes(l) && Deferred(l) && l.starting
    requires g' == g.(disabled := g.disabled || result != PersistedOk).Bump()
    ensures FlagMove(g, g', l, FinishInitialize(l, result, restored)) && Deferred(FinishInitialize(l, result, restored))
  {
  }

  /** Passing the clean check means that ownership really is clean. */
  lemma {:induction false} PassedIsClean(s: State)
    requires OwnInv(s.epoch, s.own) && CtlInv(s.epoch, s.own, s.ctl) && Coordinated(s.gate, s.life) && CleanReply(s).None?
    ensures Clean(s)
  {
    CountZero(s.own.runs, HoldsRun);
    forall r | r in s.own.runs ensures CleanRun(s.own.runs[r]) {
      assert RunShape(s.own.runs[r]);
    }
  }

  lemma {:induction false} PassKeeps(s: State)
    requires LifeInv(s) && Clean(s)
    ensures LifeInv(s.(life := s.life.(cleanChecked := true)))
  {
  }

  lemma {:induction false} RecordKeeps(s: State)
    requires LifeInv(s) && s.life.cleanChecked
    ensures LifeInv(s.(life := s.life.(cleaned := s.life.cleaned + multiset{s.epoch})))
  {
  }

  lemma {:induction false} StepMoves(s: State, step: LifecycleStep)
    requires Shapes(s.life) && Coordinated(s.gate, s.life) && Deferred(s.life) && LifecycleEnabled(s, step)
    requires !step.DoPassCleanCheck? && !step.DoRecordClean?
    ensures FlagMove(s.gate, LifecycleGate(s.gate, step), s.life, LifecycleLifecycle(s, step)) && Deferred(LifecycleLifecycle(s, step))
  {
    var g, l := s.gate, s.life;
    var g' := LifecycleGate(g, step);
    match step
    case DoBeginAttempt(ref, target, now, id) => BeginMoves(g, g', l, ref, Candidate(l, target, now), Some(id));
    case DoBeginNotice(ref, now) => BeginMoves(g, g', l, ref, l.deferral.value.Notice(now), None);
    case DoFinishUpdate(ref, result) => FinishMoves(g, g', l, ref, result, LifecycleLifecycle(s, step).preview);
    case DoFinishInitialize(result, restored) => InitializeMoves(g, g', l, result, restored);
    case _ =>
  }

  lemma {:induction false} LifecycleKeeps(s: State, step: LifecycleStep)
    requires OwnInv(s.epoch, s.own) && CtlInv(s.epoch, s.own, s.ctl) && LifeInv(s) && LifecycleEnabled(s, step)
    ensures LifeInv(LifecycleApply(s, step))
  {
    if step.DoPassCleanCheck? {
      PassedIsClean(s);
      PassKeeps(s);
    } else if step.DoRecordClean? {
      RecordKeeps(s);
    } else {
      StepMoves(s, step);
      FlagMoveKeeps(s, LifecycleApply(s, step));
    }
  }
}
