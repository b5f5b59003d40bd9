/** Recorded outcomes are final: within one epoch no step rewrites or forgets them. */
module Receipts {
  import opened RuntimeState
  import opened LaunchSteps
  import opened ResumeSteps
  import opened ControlSteps
  import opened ShutdownSteps
  import opened LifecycleSteps
  import opened RuntimeMachine
  import opened OwnershipInvariants
  import opened ControlInvariants
  import opened LifecycleInvariants
  import opened RuntimeProofs

  /** A launch that reached its commit boundary is found by its request for good,
      under one identity; a completed launch keeps its answer. */
  predicate LaunchKept(o: Ownership, o': Ownership, ref: Ref)
    requires ref in o.launches
  {
    ref in o'.launches && var t, t' := o.launches[ref], o'.launches[ref];
    AnswerKept(t, t') && (t.starting ==> t.request.id in o'.index && o'.index[t.request.id] == ref)
  }

  ghost predicate LaunchesKept(o: Ownership, o': Ownership)
  {
    forall ref :: ref in o.launches ==> LaunchKept(o, o', ref)
  }

  /** No resume is forgotten; a completed one keeps its answer. */
  predicate ResumeKept(o: Ownership, o': Ownership, id: RequestId)
    requires id in o.resumes
  {
    id in o'.resumes && var t, t' := o.resumes[id], o'.resumes[id];
    t'.request == t.request
    && (t.starting ==> t'.starting && t'.snapshot.run == t.snapshot.run)
    && (t.complete ==> t'.complete && t'.result == t.result && t'.error == t.error && t'.possibleChild == t.possibleChild)
  }

  ghost predicate ResumesKept(o: Ownership, o': Ownership)
  {
    forall id :: id in o.resumes ==> ResumeKept(o, o', id)
  }

  ghost predicate ControlsKept(c: Controls, c': Controls)
  {
    forall ref :: ref in c.tickets && c.tickets[ref].phase == Done ==> ref in c'.tickets && c'.tickets[ref] == c.tickets[ref]
  }

  ghost predicate DecisionsKept(l: Lifecycle, l': Lifecycle)
  {
    forall p :: p in l.shutdowns && l.shutdowns[p].phase == Settled ==> p in l'.shutdowns && l'.shutdowns[p] == l.shutdowns[p]
  }

  ghost predicate Kept(s: State, s': State)
  {
    LaunchesKept(s.own, s'.own) && ResumesKept(s.own, s'.own) && ControlsKept(s.ctl, s'.ctl) && DecisionsKept(s.life, s'.life)
  }

  lemma {:induction false} KeptTrans(a: State, b: State, c: State)
    requires Kept(a, b) && Kept(b, c)
    ensures Kept(a, c)
  {
  }

  // ---- Steps ------------------------------------------------------------------

  /** Only an abandoned launch that never began starting leaves the index. */
  lemma {:induction false} IndexKept(s: State, step: LaunchStep, ref: Ref)
    requires LaunchEntries(s.epoch, s.own) && LaunchEnabled(s, step)
    requires ref in s.own.launches && s.own.launches[ref].starting
    ensures var o', id := LaunchOwnership(s, step), s.own.launches[ref].request.id; id in o'.index && o'.index[id] == ref
  {
    assert LaunchEntry(s.epoch, s.own, ref);
    if step.DoFailLaunch? { assert LaunchEntry(s.epoch, s.own, step.ref); }
  }

  predicate AnswerKept(t: LaunchTicket, t': LaunchTicket)
  {
    t'.request == t.request && (t.starting ==> t'.starting && t'.snapshot.run == t.snapshot.run)
    && (t.complete ==> t'.complete && t'.result == t.result && t'.error == t.error)
  }

  predicate OwnTicketStep(step: LaunchStep) { !step.DoAdmitLaunch? && !step.DoObserveWait? && !step.DoFinishReconcile? }

  lemma {:induction false} OtherTicketKept(s: State, step: LaunchStep, ref: Ref)
    requires ref in s.own.launches && LaunchEnabled(s, step) && (OwnTicketStep(step) ==> step.ref != ref)
    ensures var o' := LaunchOwnership(s, step); ref in o'.launches && o'.launches[ref] == s.own.launches[ref]
  {
  }

  lemma {:induction false} OwnTicketKept(s: State, step: LaunchStep)
    requires OwnTicketStep(step) && LaunchEnabled(s, step) && LaunchShape(s.own.launches[step.ref])
    ensures step.ref in LaunchOwnership(s, step).launches
    ensures AnswerKept(s.own.launches[step.ref], LaunchOwnership(s, step).launches[step.ref])
  {
    hide AdmitLaunchReply, MarkRunUncertain;
    match step
    case DoJoinLaunch(_, _) =>
    case DoLeaveLaunch(_) =>
    case DoPublishLaunch(_, _) =>
    case DoFailLaunch(_, _) =>
    case _ =>
  }

  lemma {:induction false} LaunchKeepsReceipts(s: State, step: LaunchStep)
    requires LaunchEntries(s.epoch, s.own) && LaunchEnabled(s, step)
    ensures LaunchesKept(s.own, LaunchOwnership(s, step)) && ResumesKept(s.own, LaunchOwnership(s, step))
  {
    hide LaunchEnabled, LaunchOwnership;
    forall ref | ref in s.own.launches ensures LaunchKept(s.own, LaunchOwnership(s, step), ref) {
      assert LaunchEntry(s.epoch, s.own, ref);
      if OwnTicketStep(step) && step.ref == ref { OwnTicketKept(s, step); } else { OtherTicketKept(s, step, ref); }
      if s.own.launches[ref].starting { IndexKept(s, step, ref); }
    }
    LaunchLeavesResumes(s, step);
  }

  lemma {:induction false} LaunchLeavesResumes(s: State, step: LaunchStep)
    requires LaunchEnabled(s, step)
    ensures LaunchOwnership(s, step).resumes == s.own.resumes
  {
  }

  lemma {:induction false} OtherResumeKept(s: State, step: ResumeStep, id: RequestId)
    requires id in s.own.resumes && ResumeEnabled(s, step) && RequestOf(step) != id
    ensures id in ResumeOwnership(s, step).resumes && ResumeOwnership(s, step).resumes[id] == s.own.resumes[id]
  {
  }

  lemma {:induction false} OwnResumeKept(s: State, step: ResumeStep)
    requires RequestOf(step) in s.own.resumes && ResumeShape(s.own.resumes[RequestOf(step)]) && ResumeEnabled(s, step)
    ensures ResumeKept(s.own, ResumeOwnership(s, step), RequestOf(step))
  {
    hide AdmissionClosed, Full, StoredError, MarkRunUncertain;
    match step
    case DoAdmitResume(_) =>
    case DoJoinResume(_) =>
    case DoLeaveResume(_) =>
    case DoFailResume(_, _) =>
    case DoAnswerStored(_) =>
    case DoFailReservation(_, _, _) =>
    case DoFailBeforeStart(_, _, _, _) =>
    case DoCommitResume(_, _) =>
    case DoTransferResume(_) =>
    case DoSettleResume(_, _, _) =>
    case DoCompleteResume(_) =>
    case _ =>
  }

  lemma {:induction false} ResumeLeavesLaunches(s: State, step: ResumeStep)
    requires ResumeEnabled(s, step)
    ensures ResumeOwnership(s, step).launches == s.own.launches && ResumeOwnership(s, step).index == s.own.index
  {
  }

  lemma {:induction false} ResumeKeepsReceipts(s: State, step: ResumeStep)
    requires LaunchEntries(s.epoch, s.own) && ResumeEntries(s.epoch, s.own) && ResumeEnabled(s, step)
    ensures LaunchesKept(s.own, ResumeOwnership(s, step)) && ResumesKept(s.own, ResumeOwnership(s, step))
  {
    hide ResumeEnabled, ResumeOwnership;
    forall id | id in s.own.resumes ensures ResumeKept(s.own, ResumeOwnership(s, step), id) {
      assert ResumeEntry(s.epoch, s.own, id);
      if RequestOf(step) == id { OwnResumeKept(s, step); } else { OtherResumeKept(s, step, id); }
    }
    ResumeLeavesLaunches(s, step);
    LaunchesUntouched(s.epoch, s.own, ResumeOwnership(s, step));
  }

  lemma {:induction false} LaunchesUntouched(epoch: nat, o: Ownership, o': Ownership)
    requires LaunchEntries(epoch, o) && o'.launches == o.launches && o'.index == o.index
    ensures LaunchesKept(o, o')
  {
    assert forall ref :: ref in o.launches ==> LaunchEntry(epoch, o, ref);
  }

  lemma {:induction false} ControlKeepsReceipts(s: State, step: ControlStep)
    requires ControlEnabled(s, step)
    ensures ControlsKept(s.ctl, ControlControls(s, step))
  {
  }

  lemma {:induction false} ShutdownKeepsReceipts(s: State, step: ShutdownStep)
    requires ShutdownEnabled(s, step)
    ensures DecisionsKept(s.life, ShutdownLifecycle(s, step))
  {
    hide BindingOf, HasUncertain, BindingInRange, Confirms, EmptyBinding, ShutdownRoster, PreviewReply, CancelReply;
  }

  lemma {:induction false} OwnershipStepKept(s: State, s': State)
    requires LaunchesKept(s.own, s'.own) && ResumesKept(s.own, s'.own) && s'.ctl == s.ctl && s'.life == s.life
    ensures Kept(s, s')
  {
  }

  lemma {:induction false} OtherStepKept(s: State, s': State)
    requires Inv(s) && s'.own == s.own && ControlsKept(s.ctl, s'.ctl) && DecisionsKept(s.life, s'.life)
    ensures Kept(s, s')
  {
    hide CtlInv, LifeInv;
    UntouchedOwnership(s.epoch, s.own);
  }

  lemma {:induction false} OwnershipEntries(s: State)
    requires Inv(s)
    ensures LaunchEntries(s.epoch, s.own) && ResumeEntries(s.epoch, s.own)
  {
    hide CtlInv, LifeInv;
  }

  lemma {:induction false} StepKeepsReceipts(s: State, step: Step)
    requires Inv(s) && Enabled(s, step) && !step.Crash?
    ensures Kept(s, Apply(s, step))
  {
    hide LaunchEnabled, ResumeEnabled, ControlEnabled, ShutdownEnabled, LifecycleEnabled, LaunchEntries, ResumeEntries;
    hide LaunchOwnership, ResumeOwnership, ControlControls, ShutdownLifecycle, LifecycleLifecycle, LaunchesKept, ResumesKept;
    hide Inv, ControlsKept, Kept;
    OwnershipEntries(s);
    match step
    case Launching(l) => LaunchKeepsReceipts(s, l); OwnershipStepKept(s, Apply(s, step));
    case Resuming(r) => ResumeKeepsReceipts(s, r); OwnershipStepKept(s, Apply(s, step));
    case Controlling(c) => ControlKeepsReceipts(s, c); OtherStepKept(s, Apply(s, step));
    case Shutting(d) => ShutdownKeepsReceipts(s, d); ControlsUntouched(s.ctl); OtherStepKept(s, Apply(s, step));
    case Maintaining(u) => ControlsUntouched(s.ctl); LifecycleKeepsReceipts(s, u); OtherStepKept(s, Apply(s, step));
    case Crash =>
  }

  lemma {:induction false} ControlsUntouched(c: Controls)
    ensures ControlsKept(c, c)
  {
  }

  lemma {:induction false} LifecycleKeepsReceipts(s: State, step: LifecycleStep)
    requires LifecycleEnabled(s, step)
    ensures DecisionsKept(s.life, LifecycleLifecycle(s, step))
  {
  }

  lemma {:induction false} UntouchedOwnership(epoch: nat, o: Ownership)
    requires LaunchEntries(epoch, o)
    ensures LaunchesKept(o, o) && ResumesKept(o, o)
  {
    LaunchesUntouched(epoch, o, o);
  }

  predicate NoCrash(steps: seq<Step>) { forall x :: x in steps ==> !x.Crash? }

  /** Whatever happens next in this epoch, an answer given stays the answer: a
      retry with the same request finds it, and no settled launch, resume, control
      or shutdown decision is ever rewritten. */
  lemma {:induction false} AnswersAreFinal(s: State, steps: seq<Step>)
    requires Inv(s) && Legal(s, steps) && NoCrash(steps)
    ensures Kept(s, After(s, steps))
    decreases |steps|
  {
    hide Inv, Enabled, Apply, Kept;
    if steps == [] {
      NothingHappens(s);
    } else {
      StepKeepsReceipts(s, steps[0]);
      StepKeeps(s, steps[0]);
      AnswersAreFinal(Apply(s, steps[0]), steps[1..]);
      KeptTrans(s, Apply(s, steps[0]), After(s, steps));
    }
  }

  lemma {:induction false} NothingHappens(s: State)
    requires Inv(s)
    ensures Kept(s, s)
  {
    UntouchedOwnership(s.epoch, s.own);
  }
}
