/** What every reachable state of the daemon satisfies, and what single steps may
    change about the update deferral. */
module Guarantees {
  import opened RuntimeState
  import opened LaunchSteps
  import opened ResumeSteps
  import opened ControlSteps
  import opened ShutdownSteps
  import opened LifecycleSteps
  import opened RuntimeMachine
  import opened OwnershipInvariants
  import opened ControlInvariants
  import opened LifecycleInvariants
  import opened ControlProofs
  import opened RosterProofs
  import opened RuntimeProofs
  import opened Traces
  import opened Finality
  import opened Counting

  // ---- Resumes never replay -----------------------------------------------------

  lemma {:induction false} AttemptStays(s: State, step: Step, id: RequestId)
    requires Enabled(s, step) && id in s.own.attempts
    ensures id in Apply(s, step).own.attempts && Apply(s, step).own.attempts[id].creator == s.own.attempts[id].creator
  {
    hide ControlEnabled, ShutdownEnabled, LifecycleEnabled, ControlControls, ShutdownLifecycle, LifecycleLifecycle;
    match step
    case Launching(l) => LaunchLeavesAttempts(s, l);
    case Resuming(r) => ResumeKeepsCreator(s, r, id);
    case _ =>
  }

  lemma {:induction false} LaunchLeavesAttempts(s: State, step: LaunchStep)
    requires LaunchEnabled(s, step)
    ensures LaunchOwnership(s, step).attempts == s.own.attempts
  {
  }

  lemma {:induction false} ResumeKeepsCreator(s: State, step: ResumeStep, id: RequestId)
    requires ResumeEnabled(s, step) && id in s.own.attempts
    ensures id in ResumeOwnership(s, step).attempts && ResumeOwnership(s, step).attempts[id].creator == s.own.attempts[id].creator
  {
  }

  lemma {:induction false} ResumeNeedsOwnAttempt(s: State, step: Step)
    requires ResumeEntries(s.epoch, s.own) && Enabled(s, step)
    ensures forall e :: e in Effects(s, step) && e.effect.NativeResume? ==>
              e.effect.request in s.own.attempts && s.own.attempts[e.effect.request].creator == s.epoch
  {
    hide LaunchEnabled, ControlEnabled, ShutdownEnabled, LifecycleEnabled;
    if step.Resuming? && step.resume.DoCallResume? { assert ResumeEntry(s.epoch, s.own, step.resume.id); }
  }

  lemma {:induction false} ResumeEntriesHold(s: State)
    requires Inv(s)
    ensures ResumeEntries(s.epoch, s.own)
  {
    hide CtlInv, LifeInv;
  }

  /** An attempt found in the journal, left there by an earlier daemon, is never
      resumed again: not by this daemon and not by any later one. */
  lemma {:induction false} StoredIsNeverResumed(s: State, steps: seq<Step>, id: RequestId)
    requires Inv(s) && Legal(s, steps) && id in s.own.attempts && s.own.attempts[id].creator < s.epoch
    ensures forall e :: e in Trace(s, steps) ==> e.effect != NativeResume(id)
    decreases |steps|
  {
    hide Inv, Enabled, Apply, Effects;
    if steps != [] {
      ResumeEntriesHold(s);
      ResumeNeedsOwnAttempt(s, steps[0]);
      AttemptStays(s, steps[0], id);
      EpochsOfStep(s, steps[0]);
      StepKeeps(s, steps[0]);
      StoredIsNeverResumed(Apply(s, steps[0]), steps[1..], id);
    }
  }

  // ---- Ownership ------------------------------------------------------------------

  /** The two counters are exactly the work they stand for, a resumed run is
      published only with its resume durably confirmed, and no launch is both
      abandoned and starting. */
  lemma {:induction false} OwnershipIsExact(steps: seq<Step>)
    requires Legal(Boot, steps)
    ensures var o := After(Boot, steps).own;
            o.pending == Count(o.launches, HoldsLaunch) + Count(o.resumes, HoldsResume) && o.active == Count(o.runs, HoldsRun)
            && o.pending + o.active <= MAX_ACTIVE_RUNS && |o.index| + |o.resumes| <= MAX_LAUNCH_REQUESTS
    ensures var o := After(Boot, steps).own;
            forall ref :: ref in o.launches ==> !(o.launches[ref].abandoned && o.launches[ref].starting)
    ensures var o := After(Boot, steps).own;
            forall id :: id in o.resumes && o.resumes[id].attached && o.resumes[id].snapshot.run in o.runs
                         && o.runs[o.resumes[id].snapshot.run].published ==>
              id in o.attempts && o.attempts[id].phase == AttemptConfirmed && CleanStart(o.resumes[id])
  {
    hide Enabled, Apply, CtlInv, LifeInv;
    Reachable(steps);
    var s := After(Boot, steps);
    assert forall ref :: ref in s.own.launches ==> LaunchEntry(s.epoch, s.own, ref);
    assert forall id :: id in s.own.resumes ==> ResumeEntry(s.epoch, s.own, id);
  }

  // ---- Controls -------------------------------------------------------------------

  /** One control at a time on a run and thirty-two in all; a delivered receipt
      means that the effect succeeded and its evidence was saved; an effect needs
      its intent, and both happen once. */
  lemma {:induction false} ControlsAreExact(steps: seq<Step>)
    requires Legal(Boot, steps)
    ensures var c := After(Boot, steps).ctl; c.pending == |BusyRuns(c)| <= MAX_CONTROL_COORDINATORS && OneInFlight(c)
    ensures var c := After(Boot, steps).ctl;
            forall ref :: ref in c.tickets && c.tickets[ref].phase == Done && c.tickets[ref].receipt.outcome == Delivered ==>
              c.tickets[ref].saved && DeliveredEvidence(c.tickets[ref])
    ensures var c := After(Boot, steps).ctl; forall run, id :: c.applied[(run, id)] <= c.intents[(run, id)] <= 1
  {
    hide Enabled, Apply, OwnInv, LifeInv;
    Reachable(steps);
    var s := After(Boot, steps);
    PendingIsBusyRuns(s.ctl);
    assert forall ref :: ref in s.ctl.tickets ==> ControlEntry(s.ctl, ref);
  }

  /** A control is admitted only for a live run, never while a decision is being
      prepared, and after a decision or doubt only to stop; input reaches a resumed
      run only once its resume is durably confirmed. */
  lemma {:induction false} ControlsAreAdmittedSafely(s: State, run: RunId, intent: Intent, fingerprint: nat, ref: Ref, id: RequestId)
    requires Inv(s) && ControlEnabled(s, DoAdmitControl(run, intent, fingerprint, ref))
    ensures LiveRun(s.own, run) && !s.life.preparing && !BusyRun(s.ctl, run)
    ensures s.life.committed || s.life.uncertain ==> intent.kind == Stop
    ensures intent.kind == Input ==> s.own.runs[run].published && !s.own.runs[run].snapshot.uncertain
    ensures intent.kind == Input && id in s.own.resumes && s.own.resumes[id].attached && s.own.resumes[id].snapshot.run == run ==>
              id in s.own.attempts && s.own.attempts[id].phase == AttemptConfirmed
  {
    hide CtlInv, LifeInv, Conserved, Bounded, LaunchEntries, Indexed, StartsCounted, AttemptsCounted, Drawn;
    assert RunShape(s.own.runs[run]);
    if id in s.own.resumes { assert ResumeEntry(s.epoch, s.own, id); }
  }

  // ---- Shutdown -------------------------------------------------------------------

  /** At most one decision is committed; a draining receipt closed every terminal
      of its roster; there is never more than one lifecycle coordinator. */
  lemma {:induction false} DecisionsAreExact(steps: seq<Step>)
    requires Legal(Boot, steps)
    ensures var l := After(Boot, steps).life;
            0 <= l.pending <= 1
            && (forall p, q | p in l.shutdowns && q in l.shutdowns && l.shutdowns[p].committed && l.shutdowns[q].committed :: p == q)
            && (forall p :: p in l.shutdowns && l.shutdowns[p].outcome == Draining ==>
                  l.shutdowns[p].committed && l.shutdowns[p].closedTerminals == l.shutdowns[p].binding.totalRuns)
    ensures var s := After(Boot, steps);
            forall p :: p in s.life.shutdowns && s.life.shutdowns[p].committed ==>
              s.own.pending == 0
              && (s.life.shutdowns[p].purpose.Update? ==> s.own.active == 0 && s.ctl.pending == 0 && s.life.shutdowns[p].children == {})
  {
    hide Enabled, Apply, OwnInv, CtlInv;
    Reachable(steps);
    var s := After(Boot, steps);
    assert forall p :: p in s.life.shutdowns ==> ShutdownShape(s.life.shutdowns[p]);
  }

  // ---- Idle -----------------------------------------------------------------------

  /** The owner is idle exactly when every child was waited for with a known exit,
      no reservation, control or coordinator is in motion, and nothing may hide a
      child. */
  lemma {:induction false} IdleMeansJoined(s: State)
    requires Inv(s)
    ensures Idle(s) <==>
            (forall r :: r in s.own.runs ==> s.own.runs[r].phase == Reconciled(true))
            && (forall ref :: ref in s.own.launches ==> !HoldsLaunch(s.own.launches[ref]))
            && (forall id :: id in s.own.resumes ==> !HoldsResume(s.own.resumes[id]))
            && (forall ref :: ref in s.ctl.tickets ==> s.ctl.tickets[ref].phase == Done)
            && (forall p :: p in s.life.shutdowns ==> s.life.shutdowns[p].phase == Settled)
            && (forall ref :: ref in s.life.updates ==> s.life.updates[ref].settled)
  {
    CountZero(s.own.runs, HoldsRun);
    CountZero(s.own.launches, HoldsLaunch);
    CountZero(s.own.resumes, HoldsResume);
    CountZero(s.ctl.tickets, InFlight);
    CountZero(s.life.shutdowns, Unsettled);
    CountZero(s.life.updates, UnsettledUpdate);
    hide LaunchEntries, Indexed, StartsCounted, ResumeEntries, AttemptsCounted, RunEntries, Drawn, ControlEntries, AllRetained;
    hide BusyWitnessed, IntentsCounted, LedgersBounded, Shapes, Frozen, TerminalsCounted, DecisionsCounted, Deferred, CleanPublished;
  }
}
