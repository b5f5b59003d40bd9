/** Launch, resume and control steps leave the lifecycle invariant alone: behind a
    closed gate with nothing pending they cannot bring work back. */
module FrozenProofs {
  import opened RuntimeState
  import opened LaunchSteps
  import opened ResumeSteps
  import opened ControlSteps
  import opened OwnershipInvariants
  import opened ControlInvariants
  import opened LifecycleInvariants
  import opened Counting

  // ---- Ownership steps under a closed gate ---------------------------------

  lemma {:induction false} QuietLaunch(s: State, step: LaunchStep)
    requires Conserved(s.own) && RunEntries(s.own) && LaunchEntries(s.epoch, s.own) && LaunchEnabled(s, step)
    requires AdmissionClosed(s) && s.own.pending == 0
    ensures LaunchOwnership(s, step).pending == 0 && LaunchOwnership(s, step).active <= s.own.active
    ensures s.own.active == 0 ==> LaunchOwnership(s, step).runs == s.own.runs && LaunchOwnership(s, step).active == 0
  {
    CountZero(s.own.launches, HoldsLaunch);
    CountZero(s.own.runs, HoldsRun);
    if !step.DoAdmitLaunch? && !step.DoObserveWait? && !step.DoFinishReconcile? {
      assert LaunchEntry(s.epoch, s.own, step.ref);
    }
  }

  lemma {:induction false} QuietResume(s: State, step: ResumeStep)
    requires Conserved(s.own) && ResumeEntries(s.epoch, s.own) && ResumeEnabled(s, step)
    requires AdmissionClosed(s) && s.own.pending == 0
    ensures ResumeOwnership(s, step).pending == 0 && ResumeOwnership(s, step).active <= s.own.active
    ensures s.own.active == 0 ==> ResumeOwnership(s, step).runs == s.own.runs && ResumeOwnership(s, step).active == 0
  {
    CountZero(s.own.resumes, HoldsResume);
    CountZero(s.own.runs, HoldsRun);
    if !step.DoAdmitResume? && !step.DoJoinResume? {
      assert ResumeEntry(s.epoch, s.own, step.id);
    }
  }

  // ---- Ownership only grows -------------------------------------------------

  /** Runs stay owned, and a drawn identity stays with who drew it. */
  ghost predicate Grows(o: Ownership, o': Ownership)
  {
    o.runs.Keys <= o'.runs.Keys && forall r :: r in o.drawn ==> r in o'.drawn && o'.drawn[r] == o.drawn[r]
  }

  lemma {:induction false} LaunchGrows(s: State, step: LaunchStep)
    requires LaunchEnabled(s, step)
    ensures Grows(s.own, LaunchOwnership(s, step))
  {
  }

  lemma {:induction false} ResumeGrows(s: State, step: ResumeStep)
    requires ResumeEnabled(s, step)
    ensures Grows(s.own, ResumeOwnership(s, step))
  {
  }

  // ---- What they mean for the other invariants ------------------------------

  /** Controls belong to runs, and runs stay. */
  lemma {:induction false} GrowthKeepsControls(epoch: nat, o: Ownership, o': Ownership, c: Controls)
    requires CtlInv(epoch, o, c) && Grows(o, o') && RunEntries(o') && Drawn(epoch, o')
    ensures CtlInv(epoch, o', c)
  {
  }

  lemma {:induction false} GrowthKeepsTerminals(epoch: nat, o: Ownership, o': Ownership, l: Lifecycle)
    requires TerminalsCounted(epoch, o, l) && Grows(o, o') && RunEntries(o') && Drawn(epoch, o')
    ensures TerminalsCounted(epoch, o', l)
  {
  }

  /** An unsettled decision is being prepared, so admission is closed. */
  lemma {:induction false} UnsettledPrepares(g: Gate, l: Lifecycle)
    requires Coordinated(g, l)
    ensures forall p | p in l.shutdowns && Unsettled(l.shutdowns[p]) :: l.preparing
  {
    CountZero(l.shutdowns, Unsettled);
  }

  /** The same gate, or one change later. */
  predicate Later(g: Gate, g': Gate) { g' == g || g' == g.Bump() }

  ghost predicate Quiet(s: State, o': Ownership)
  {
    AdmissionClosed(s) && s.own.pending == 0 ==>
      o'.pending == 0 && o'.active <= s.own.active
      && (s.own.active == 0 ==> o'.runs == s.own.runs && o'.active == 0)
  }

  lemma {:induction false} OwnershipKeepsLife(s: State, s': State)
    requires OwnInv(s.epoch, s.own) && LifeInv(s)
    requires s' == s.(own := s'.own, gate := s'.gate) && Later(s.gate, s'.gate)
    requires OwnInv(s.epoch, s'.own) && Grows(s.own, s'.own) && Quiet(s, s'.own)
    ensures LifeInv(s')
  {
    GrowthKeepsTerminals(s.epoch, s.own, s'.own, s.life);
    CountZero(s.own.runs, HoldsRun);
    CountZero(s'.own.runs, HoldsRun);
    UnsettledPrepares(s.gate, s.life);
  }

  /** With no control in flight, a control step can only be an admission, which a
      decision in preparation and the absence of live runs both refuse. */
  lemma {:induction false} NoControlStep(s: State, step: ControlStep)
    requires CtlInv(s.epoch, s.own, s.ctl) && Conserved(s.own) && RunEntries(s.own)
    ensures s.ctl.pending == 0 && (s.life.preparing || s.own.active == 0) ==> !ControlEnabled(s, step)
  {
    CountZero(s.ctl.tickets, InFlight);
    CountZero(s.own.runs, HoldsRun);
  }

  lemma {:induction false} ControlKeepsLife(s: State, step: ControlStep)
    requires OwnInv(s.epoch, s.own) && CtlInv(s.epoch, s.own, s.ctl) && LifeInv(s) && ControlEnabled(s, step)
    ensures LifeInv(ControlApply(s, step))
  {
    var s' := ControlApply(s, step);
    CountZero(s.own.runs, HoldsRun);
    NoControlStep(s, step);
    UnsettledPrepares(s.gate, s.life);
  }
}
