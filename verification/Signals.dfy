/** The revision is also the bell: whoever waits for the daemon is woken when it moves. */
module Signals {
  import opened Options
  import opened RuntimeState
  import opened LaunchSteps
  import opened ResumeSteps
  import opened ControlSteps
  import opened ShutdownSteps
  import opened LifecycleSteps
  import opened RuntimeMachine

  /** A change moves the revision by one; at the last one it closes the daemon for good. */
  lemma {:induction false} RevisionExactly(g: Gate)
    requires g.revision <= MAX_REVISION
    ensures g.revision < MAX_REVISION ==> g.Bump() == g.(revision := g.revision + 1)
    ensures g.revision == MAX_REVISION ==> g.Bump() == g.(disabled := true, exhausted := true)
  {
  }

  /** Nothing was finished, admitted, transferred or decided. */
  ghost predicate SameWork(s: State, s': State)
  {
    s'.own.pending == s.own.pending && s'.own.active == s.own.active && s'.own.runs == s.own.runs && s'.own.index == s.own.index
    && (forall ref :: ref in s.own.launches ==>
          ref in s'.own.launches && s'.own.launches[ref].complete == s.own.launches[ref].complete
          && s'.own.launches[ref].starting == s.own.launches[ref].starting)
    && (forall id :: id in s.own.resumes ==>
          id in s'.own.resumes && s'.own.resumes[id].complete == s.own.resumes[id].complete
          && s'.own.resumes[id].result == s.own.resumes[id].result)
    && s'.ctl.pending == s.ctl.pending
    && (forall ref :: ref in s.ctl.tickets ==> ref in s'.ctl.tickets && (s'.ctl.tickets[ref].phase.Done? <==> s.ctl.tickets[ref].phase.Done?))
    && (forall p :: p in s.life.shutdowns ==>
          p in s'.life.shutdowns && s'.life.shutdowns[p].outcome == s.life.shutdowns[p].outcome
          && s'.life.shutdowns[p].committed == s.life.shutdowns[p].committed)
    && s'.life.(preview := s.life.preview, shutdowns := s.life.shutdowns, closed := s.life.closed,
                cleanChecked := s.life.cleanChecked, cleaned := s.life.cleaned) == s.life
  }

  lemma {:induction false} SilentLaunch(s: State, step: LaunchStep)
    requires LaunchEnabled(s, step) && !LaunchSignals(s.own, step)
    ensures SameWork(s, LaunchApply(s, step))
  {
  }

  lemma {:induction false} SilentResume(s: State, step: ResumeStep)
    requires ResumeEnabled(s, step) && !ResumeSignals(step)
    ensures SameWork(s, ResumeApply(s, step))
  {
  }

  lemma {:induction false} SilentControl(s: State, step: ControlStep)
    requires ControlEnabled(s, step) && !ControlSignals(step)
    ensures SameWork(s, ControlApply(s, step))
  {
    hide Reserve, Record, Abandon, ResultOf, Evidence;
  }

  lemma {:induction false} SilentShutdown(s: State, step: ShutdownStep)
    requires ShutdownEnabled(s, step) && !ShutdownSignals(step)
    ensures SameWork(s, ShutdownApply(s, step))
  {
    hide BindingOf, HasUncertain, ConfirmReply;
  }

  lemma {:induction false} SilentMaintenance(s: State, step: LifecycleStep)
    requires LifecycleEnabled(s, step) && !LifecycleSignals(step)
    ensures SameWork(s, LifecycleApply(s, step))
  {
    hide BindingOf, HasUncertain, Quiescent;
  }

  /** A step that leaves the revision where it was finished, admitted, transferred and
      decided nothing: no change goes by without waking its waiters. */
  lemma {:induction false} NoSilentChange(s: State, step: Step)
    requires Enabled(s, step) && !step.Crash? && s.gate.revision < MAX_REVISION
    requires Apply(s, step).gate.revision == s.gate.revision
    ensures SameWork(s, Apply(s, step))
  {
    hide LaunchEnabled, ResumeEnabled, ControlEnabled, ShutdownEnabled, LifecycleEnabled, SameWork;
    hide LaunchOwnership, ResumeOwnership, ControlControls, ShutdownLifecycle, LifecycleLifecycle;
    match step
    case Launching(l) => if !LaunchSignals(s.own, l) { SilentLaunch(s, l); }
    case Resuming(r) => if !ResumeSignals(r) { SilentResume(s, r); }
    case Controlling(c) => if !ControlSignals(c) { SilentControl(s, c); }
    case Shutting(d) => if !ShutdownSignals(d) { SilentShutdown(s, d); }
    case Maintaining(u) => if !LifecycleSignals(u) { SilentMaintenance(s, u); }
  }

  /** So whoever waits for the daemon to become idle is woken when it does. */
  lemma {:induction false} IdleIsSignalled(s: State, step: Step)
    requires Enabled(s, step) && !step.Crash? && s.gate.revision < MAX_REVISION
    requires !Idle(s) && Idle(Apply(s, step))
    ensures Apply(s, step).gate.revision == s.gate.revision + 1
  {
    if Apply(s, step).gate.revision == s.gate.revision {
      hide Enabled, Apply;
      NoSilentChange(s, step);
    } else {
      RevisionMoves(s, step);
    }
  }

  lemma {:induction false} RevisionMoves(s: State, step: Step)
    requires Enabled(s, step) && !step.Crash? && s.gate.revision < MAX_REVISION
    ensures s.gate.revision <= Apply(s, step).gate.revision <= s.gate.revision + 1
  {
    hide LaunchEnabled, ResumeEnabled, ControlEnabled, ShutdownEnabled, LifecycleEnabled;
    hide LaunchOwnership, ResumeOwnership, ControlControls, ShutdownLifecycle, LifecycleLifecycle;
  }
}
