/** What a published clean marker and a committed decision rule out for the rest of
    their epoch, whatever any goroutine does next. */
module Finality {
  import opened RuntimeState
  import opened LaunchSteps
  import opened ResumeSteps
  import opened ControlSteps
  import opened ShutdownSteps
  import opened LifecycleSteps
  import opened RuntimeMachine
  import opened Traces
  import opened OwnershipInvariants
  import opened ControlInvariants
  import opened LifecycleInvariants
  import opened RuntimeProofs
  import opened Counting

  /** Creates a native child. */
  predicate Spawns(e: Effect) { e.Start? || e.NativeResume? }

  /** Reaches a native child. */
  predicate Touches(e: Effect) { e.Intend? || e.ApplyEffect? }

  // ---- One step -------------------------------------------------------------

  lemma {:induction false} NothingPendingNothingSpawned(s: State, step: Step)
    requires Conserved(s.own) && LaunchEntries(s.epoch, s.own) && ResumeEntries(s.epoch, s.own) && s.own.pending == 0
    requires Enabled(s, step)
    ensures forall e :: e in Effects(s, step) ==> !Spawns(e.effect)
  {
    hide ControlEnabled, ShutdownEnabled, LifecycleEnabled;
    CountZero(s.own.launches, HoldsLaunch);
    CountZero(s.own.resumes, HoldsResume);
    assert forall id :: id in s.own.resumes ==> ResumeEntry(s.epoch, s.own, id);
  }

  lemma {:induction false} NothingInFlightNothingTouched(s: State, step: Step)
    requires s.ctl.pending == Count(s.ctl.tickets, InFlight) && s.ctl.pending == 0 && Enabled(s, step)
    ensures forall e :: e in Effects(s, step) ==> !Touches(e.effect)
  {
    hide LaunchEnabled, ResumeEnabled, ShutdownEnabled, LifecycleEnabled;
    CountZero(s.ctl.tickets, InFlight);
  }

  lemma {:induction false} DecidedOnce(s: State, step: Step, p: PreviewId)
    requires Coordinated(s.gate, s.life) && Shapes(s.life) && p in s.life.shutdowns && s.life.shutdowns[p].committed
    requires Enabled(s, step)
    ensures forall e :: e in Effects(s, step) ==>
              !e.effect.Decide? && (e.effect.Close? ==> e.effect.run in s.life.shutdowns[p].children)
  {
    hide LaunchEnabled, ResumeEnabled, ControlEnabled, LifecycleEnabled;
    assert ShutdownShape(s.life.shutdowns[p]);
  }

  predicate DecisionMade(s: State, p: PreviewId) { p in s.life.shutdowns && s.life.shutdowns[p].committed }

  /** Nothing but a crash takes a decision or a clean check back. */
  lemma {:induction false} StepIsFinal(s: State, step: Step, p: PreviewId)
    requires Enabled(s, step) && !step.Crash?
    ensures Apply(s, step).epoch == s.epoch
    ensures s.life.cleanChecked ==> Apply(s, step).life.cleanChecked
    ensures DecisionMade(s, p) ==>
              DecisionMade(Apply(s, step), p)
              && Apply(s, step).life.shutdowns[p].purpose == s.life.shutdowns[p].purpose
              && Apply(s, step).life.shutdowns[p].children == s.life.shutdowns[p].children
  {
    hide LaunchEnabled, ResumeEnabled, ControlEnabled, ShutdownEnabled, LaunchOwnership, ResumeOwnership, ControlControls;
    hide ShutdownLifecycle, LifecycleLifecycle, LifecycleEnabled, ShutdownGate, LifecycleGate, LaunchSignals, ResumeSignals, ControlSignals;
    match step
    case Shutting(d) => ShutdownIsFinal(s, d, p);
    case Maintaining(u) => MaintenanceIsFinal(s, u);
    case _ =>
  }

  lemma {:induction false} MaintenanceIsFinal(s: State, step: LifecycleStep)
    requires LifecycleEnabled(s, step)
    ensures LifecycleLifecycle(s, step).shutdowns == s.life.shutdowns
    ensures s.life.cleanChecked ==> LifecycleLifecycle(s, step).cleanChecked
  {
    hide BindingOf, HasUncertain, Quiescent, LifecycleGate, MetadataBusy, AttemptReply, NoticeReply, CleanReply, MayInitialize;
    match step
    case DoFinishUpdate(_, _) =>
    case DoBeginAttempt(_, _, _, _) =>
    case DoBeginNotice(_, _) =>
    case _ =>
  }

  lemma {:induction false} ShutdownIsFinal(s: State, step: ShutdownStep, p: PreviewId)
    requires ShutdownEnabled(s, step)
    ensures ShutdownLifecycle(s, step).cleanChecked == s.life.cleanChecked
    ensures DecisionMade(s, p) ==>
              var l' := ShutdownLifecycle(s, step);
              p in l'.shutdowns && l'.shutdowns[p].committed && l'.shutdowns[p].purpose == s.life.shutdowns[p].purpose
              && l'.shutdowns[p].children == s.life.shutdowns[p].children
  {
    hide BindingOf, HasUncertain, BindingInRange, Confirms, EmptyBinding, ShutdownRoster, PreviewReply, CancelReply;
    if step.DoConfirmShutdown? {
      assert step.binding.preview !in s.life.shutdowns;
    }
  }

  // ---- The rest of a run ------------------------------------------------------

  lemma {:induction false} EpochsGrow(s: State, steps: seq<Step>)
    requires Legal(s, steps)
    ensures forall e :: e in Trace(s, steps) ==> e.epoch >= s.epoch
    decreases |steps|
  {
    hide Enabled, Apply, Effects;
    if steps != [] {
      EpochsOfStep(s, steps[0]);
      EpochsGrow(Apply(s, steps[0]), steps[1..]);
    }
  }

  lemma {:induction false} EpochsOfStep(s: State, step: Step)
    requires Enabled(s, step)
    ensures Apply(s, step).epoch == if step.Crash? then s.epoch + 1 else s.epoch
    ensures forall e :: e in Effects(s, step) ==> e.epoch == s.epoch
  {
  }

  /** The rest of the epoch only holds events that satisfy `ok`. */
  ghost predicate RestOfEpoch(tr: seq<Event>, epoch: nat, ok: Effect -> bool)
  {
    forall e :: e in tr && e.epoch == epoch ==> ok(e.effect)
  }

  lemma {:induction false} RestSplits(here: seq<Event>, rest: seq<Event>, epoch: nat, ok: Effect -> bool)
    requires RestOfEpoch(here, epoch, ok) && RestOfEpoch(rest, epoch, ok)
    ensures RestOfEpoch(here + rest, epoch, ok)
  {
  }

  lemma {:induction false} CrashEndsEpoch(s: State, steps: seq<Step>, ok: Effect -> bool)
    requires Legal(s, steps) && steps != [] && steps[0].Crash?
    ensures RestOfEpoch(Trace(s, steps), s.epoch, ok)
  {
    hide Enabled, Apply, Effects;
    EpochsOfStep(s, steps[0]);
    EpochsGrow(Apply(s, steps[0]), steps[1..]);
    CrashHasNoEffect(s);
  }

  lemma {:induction false} CrashHasNoEffect(s: State)
    ensures Effects(s, Crash) == []
  {
  }

  predicate LeavesChildrenAlone(e: Effect) { !Spawns(e) && !Touches(e) }

  lemma {:induction false} CleanStep(s: State, step: Step)
    requires Inv(s) && s.life.cleanChecked && Enabled(s, step)
    ensures RestOfEpoch(Effects(s, step), s.epoch, LeavesChildrenAlone)
  {
    hide Enabled, Effects;
    NothingPendingNothingSpawned(s, step);
    NothingInFlightNothingTouched(s, step);
  }

  /** After the clean check no child starts and none is reached. */
  lemma {:induction false} AfterClean(s: State, steps: seq<Step>)
    requires Inv(s) && s.life.cleanChecked && Legal(s, steps)
    ensures RestOfEpoch(Trace(s, steps), s.epoch, LeavesChildrenAlone)
    decreases |steps|
  {
    hide Inv, Enabled, Apply, Effects;
    if steps == [] {
    } else if steps[0].Crash? {
      CrashEndsEpoch(s, steps, LeavesChildrenAlone);
    } else {
      CleanStep(s, steps[0]);
      StepIsFinal(s, steps[0], 0);
      StepKeeps(s, steps[0]);
      AfterClean(Apply(s, steps[0]), steps[1..]);
      RestSplits(Effects(s, steps[0]), Trace(Apply(s, steps[0]), steps[1..]), s.epoch, LeavesChildrenAlone);
    }
  }

  predicate StartsNothing(e: Effect) { !Spawns(e) && !e.Decide? }

  predicate DoesNothing(e: Effect) { !Spawns(e) && !Touches(e) && !e.Decide? && !e.Close? }

  lemma {:induction false} DecidedStep(s: State, step: Step, p: PreviewId)
    requires Inv(s) && DecisionMade(s, p) && Enabled(s, step)
    ensures RestOfEpoch(Effects(s, step), s.epoch, StartsNothing)
    ensures s.life.shutdowns[p].purpose.Update? ==> RestOfEpoch(Effects(s, step), s.epoch, DoesNothing)
  {
    hide Enabled, Effects;
    assert ShutdownShape(s.life.shutdowns[p]);
    NothingPendingNothingSpawned(s, step);
    if s.life.shutdowns[p].purpose.Update? { NothingInFlightNothingTouched(s, step); }
    DecidedOnce(s, step, p);
  }

  /** After a committed decision no child starts and nothing is decided again;
      after an update handoff no child is reached either. */
  lemma {:induction false} AfterDecision(s: State, steps: seq<Step>, p: PreviewId)
    requires Inv(s) && DecisionMade(s, p) && Legal(s, steps)
    ensures RestOfEpoch(Trace(s, steps), s.epoch, StartsNothing)
    ensures s.life.shutdowns[p].purpose.Update? ==> RestOfEpoch(Trace(s, steps), s.epoch, DoesNothing)
    decreases |steps|
  {
    hide Inv, Enabled, Apply, Effects;
    if steps == [] {
    } else if steps[0].Crash? {
      CrashEndsEpoch(s, steps, StartsNothing);
      CrashEndsEpoch(s, steps, DoesNothing);
    } else {
      DecidedStep(s, steps[0], p);
      StepIsFinal(s, steps[0], p);
      StepKeeps(s, steps[0]);
      AfterDecision(Apply(s, steps[0]), steps[1..], p);
      var here, rest := Effects(s, steps[0]), Trace(Apply(s, steps[0]), steps[1..]);
      RestSplits(here, rest, s.epoch, StartsNothing);
      if s.life.shutdowns[p].purpose.Update? { RestSplits(here, rest, s.epoch, DoesNothing); }
    }
  }
}
