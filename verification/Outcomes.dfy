/** Over whole runs: every answer given is exactly the one that the recorded answers of
    the ports call for, and those are recorded when given and never rewritten. */
module Outcomes {
  import opened Options
  import opened RuntimeState
  import opened LaunchSteps
  import opened ResumeSteps
  import opened ControlSteps
  import opened ShutdownSteps
  import opened LifecycleSteps
  import opened RuntimeMachine
  import opened OwnershipInvariants
  import opened ControlInvariants
  import opened LifecycleInvariants
  import opened RuntimeProofs
  import opened Counting
  import opened Receipts
  import L = LaunchProofs
  import R = ResumeProofs
  import P = ControlProofs
  import SD = ShutdownProofs
  import Finality
  import O = OwnershipOutcomes
  import C = ControlOutcomes
  import D = ShutdownOutcomes

  ghost predicate Exact(s: State) { O.Answered(s.own) && C.AllAnswered(s.ctl) && D.DecisionsAnswered(s.life) }

  lemma {:induction false} Entries(s: State)
    requires Inv(s)
    ensures RunEntries(s.own) && LaunchEntries(s.epoch, s.own) && ResumeEntries(s.epoch, s.own) && AttemptsCounted(s.epoch, s.own)
    ensures CtlInv(s.epoch, s.own, s.ctl) && Shapes(s.life) && Coordinated(s.gate, s.life)
  {
    hide CtlInv, Shapes, Coordinated;
  }

  lemma {:induction false} CrashAnswers(s: State)
    ensures Exact(NewRuntime(s.epoch + 1, s.own, s.ctl, s.life))
  {
  }

  lemma {:induction false} StepAnswers(s: State, step: Step)
    requires Inv(s) && Exact(s) && Enabled(s, step)
    ensures Exact(Apply(s, step))
  {
    hide Inv, O.Answered, C.AllAnswered, LaunchEnabled, ResumeEnabled, ControlEnabled, ShutdownEnabled, LifecycleEnabled;
    hide RunEntries, LaunchEntries, ResumeEntries, AttemptsCounted, CtlInv, Shapes, Coordinated;
    hide LaunchOwnership, ResumeOwnership, ControlControls, ShutdownLifecycle, LifecycleLifecycle, D.DecisionAnswered, NewRuntime;
    Entries(s);
    match step
    case Launching(l) => O.LaunchKeepsAnswers(s, l);
    case Resuming(r) => O.ResumeKeepsAnswers(s, r);
    case Controlling(c) => C.ControlKeepsAnswers(s, c);
    case Shutting(d) => D.ShutdownKeepsAnswers(s, d);
    case Maintaining(u) => Finality.MaintenanceIsFinal(s, u);
    case Crash => CrashAnswers(s);
  }

  lemma {:induction false} RunAnswers(s: State, steps: seq<Step>)
    requires Inv(s) && Exact(s) && Legal(s, steps)
    ensures Exact(After(s, steps))
    decreases |steps|
  {
    hide Inv, Exact, Enabled, Apply;
    if steps != [] {
      StepAnswers(s, steps[0]);
      StepKeeps(s, steps[0]);
      RunAnswers(Apply(s, steps[0]), steps[1..]);
    }
  }

  /** In every reachable state, each finished request, each owned run and each settled
      decision shows exactly what the recorded answers of the ports amount to. */
  lemma {:induction false} OutcomesAreExact(steps: seq<Step>)
    requires Legal(Boot, steps)
    ensures Exact(After(Boot, steps))
  {
    hide Inv, Enabled, Apply;
    BootHolds();
    RunAnswers(Boot, steps);
  }

  /** A finished launch has no error exactly when its child started and was saved, and
      its run is published exactly then, until a wait or its journal says otherwise. */
  lemma {:induction false} LaunchConcludes(steps: seq<Step>, ref: Ref)
    requires Legal(Boot, steps) && ref in After(Boot, steps).own.launches
    requires var t := After(Boot, steps).own.launches[ref]; t.phase.Finished? && !t.aborted
    ensures var o := After(Boot, steps).own; var t := o.launches[ref]; var good := t.start.Child? && t.start.pid > 0 && t.saved == Some(true);
            (t.error.None? <==> good) && (good ==> t.result == Some(RunSnapshot(t.snapshot.run, Live, false)))
            && (t.start.Child? ==> t.snapshot.run in o.runs
                                   && var r := o.runs[t.snapshot.run];
                                   (r.published <==> good && r.waited != Some(false) && r.journaled != Some(false))
                                   && (r.snapshot.uncertain <==> !r.published))
  {
    hide Inv, Enabled, Apply;
    OutcomesAreExact(steps);
    Reachable(steps);
    var s := After(Boot, steps);
    Entries(s);
    LaunchFollows(s.epoch, s.own, ref);
  }

  lemma {:induction false} LaunchFollows(epoch: nat, o: Ownership, ref: Ref)
    requires O.Answered(o) && LaunchEntries(epoch, o) && ref in o.launches && o.launches[ref].phase.Finished? && !o.launches[ref].aborted
    ensures var t := o.launches[ref];
            (t.error.None? <==> O.LaunchPublished(t)) && (O.LaunchPublished(t) ==> t.result == Some(O.Descriptor(t.snapshot.run, t.start.pid, false)))
            && (t.start.Child? ==> t.snapshot.run in o.runs && O.RunFollows(o.runs[t.snapshot.run], t.start.pid, O.LaunchPublished(t)))
  {
    assert LaunchEntry(epoch, o, ref) && O.LaunchAnswered(o.launches[ref]);
    if o.launches[ref].start.Child? { assert O.RunAnswered(o, o.launches[ref].snapshot.run); }
  }

  /** A completed resume has no error exactly when its own child was confirmed, or a
      confirmed attempt for the same selection was found; either way the confirmation
      is durable. What a stored attempt answers depends on its phase alone. */
  lemma {:induction false} ResumeConcludes(steps: seq<Step>, id: RequestId)
    requires Legal(Boot, steps) && id in After(Boot, steps).own.resumes && After(Boot, steps).own.resumes[id].complete
    ensures var o := After(Boot, steps).own; var t := o.resumes[id];
            (t.error.None? <==> t.confirmed == Some(true)
                                || (t.stored.Some? && t.stored.value.selection == t.request.selection && t.stored.value.phase == AttemptConfirmed))
            && (t.error.None? ==> id in o.attempts && o.attempts[id].phase == AttemptConfirmed && t.result.phase == Some(AttemptConfirmed))
            && (t.confirmed == Some(true) ==> CleanStart(t))
    ensures var o := After(Boot, steps).own; var t := o.resumes[id];
            t.stored.Some? ==> o.resumes[id].start.NotCalled? && O.AnsweredFrom(o, id, t.stored.value)
    ensures var o := After(Boot, steps).own; var t := o.resumes[id];
            t.attached ==> t.snapshot.run in o.runs
                           && var r := o.runs[t.snapshot.run];
                           (r.published <==> t.confirmed == Some(true) && r.waited != Some(false) && r.journaled != Some(false))
                           && (r.snapshot.uncertain <==> !r.published)
  {
    hide Inv, Enabled, Apply;
    OutcomesAreExact(steps);
    Reachable(steps);
    var s := After(Boot, steps);
    Entries(s);
    ResumeFollows(s.epoch, s.own, id);
  }

  lemma {:induction false} ResumeFollows(epoch: nat, o: Ownership, id: RequestId)
    requires O.Answered(o) && ResumeEntries(epoch, o) && id in o.resumes && o.resumes[id].complete
    ensures var t := o.resumes[id];
            (t.error.None? <==> t.confirmed == Some(true)
                                || (t.stored.Some? && t.stored.value.selection == t.request.selection && t.stored.value.phase == AttemptConfirmed))
            && (t.error.None? ==> id in o.attempts && o.attempts[id].phase == AttemptConfirmed && t.result.phase == Some(AttemptConfirmed))
            && (t.confirmed == Some(true) ==> CleanStart(t))
            && (t.stored.Some? ==> t.start.NotCalled? && O.AnsweredFrom(o, id, t.stored.value))
            && (t.attached ==> t.snapshot.run in o.runs && O.RunFollows(o.runs[t.snapshot.run], t.start.pid, t.confirmed == Some(true))
                               && (t.confirmed == Some(true) ==> t.start.pid > 0))
  {
    assert ResumeEntry(epoch, o, id) && O.ResumeAnswered(o, id);
    if o.resumes[id].attached { assert O.RunAnswered(o, o.resumes[id].snapshot.run); }
  }

  /** A finished control that its run still remembers is delivered, or rejected,
      exactly when the effect said so without error and with a credible byte count,
      and that evidence was saved; its error says the same. One that was dropped, and
      may be retried, had definitely no durable intent and never reached its effect. */
  lemma {:induction false} ControlConcludes(steps: seq<Step>, ref: Ref)
    requires Legal(Boot, steps) && ref in After(Boot, steps).ctl.tickets && After(Boot, steps).ctl.tickets[ref].phase == Done
    ensures var c := After(Boot, steps).ctl; var t := c.tickets[ref];
            if C.Kept(c, ref) then
              (t.receipt.outcome == Delivered <==> C.Answered(t, Delivered) && t.saved)
              && (t.receipt.outcome == Rejected <==> C.Answered(t, Rejected) && t.saved)
              && t.receipt.outcome != Pending && C.ErrorFits(t.receipt.outcome, t.error)
              && (t.reserved == Some(CommittedIntent) || t.reserved == Some(MaybeCommitted))
            else
              t.receipt.outcome == Rejected && t.applied.None? && t.error.Some?
              && (t.reserved.None? || t.reserved == Some(DefinitelyNot))
  {
    hide Inv, Enabled, Apply, C.ErrorFits;
    OutcomesAreExact(steps);
    assert C.ControlAnswered(After(Boot, steps).ctl, ref);
  }

  /** A settled committed decision is draining, without error, exactly when every
      terminal of its roster closed and the journal has it; it counts the terminals
      that did close. */
  lemma {:induction false} DecisionConcludes(steps: seq<Step>, p: PreviewId)
    requires Legal(Boot, steps) && p in After(Boot, steps).life.shutdowns
    requires var t := After(Boot, steps).life.shutdowns[p]; t.phase == Settled && t.committed
    ensures var t := After(Boot, steps).life.shutdowns[p];
            t.closes.Keys == t.children && t.closedTerminals == |set r | r in t.children && t.closes[r]|
            && (t.outcome == Draining <==> (forall r :: r in t.children ==> t.closes[r]) && t.saved == Some(true))
            && (t.error.None? <==> t.outcome == Draining) && (t.outcome != Draining ==> t.outcome == ShutdownUnknown && t.error == Some(ErrUnknown))
  {
    hide Inv, Enabled, Apply;
    OutcomesAreExact(steps);
    var t := After(Boot, steps).life.shutdowns[p];
    assert D.DecisionAnswered(t);
    assert Where(t.closes, D.Good) == set r | r in t.children && t.closes[r];
  }

  // ---- What a port answered is recorded ------------------------------------------

  /** The state after a step shows the answer that the step brought. */
  predicate Records(s: State, step: Step)
    requires Enabled(s, step)
  {
    var s' := Apply(s, step);
    match step
    case Launching(l) =>
      (match l
       case DoCallStart(ref, outcome) => ref in s'.own.launches && s'.own.launches[ref].start == outcome
       case DoPublishLaunch(ref, saved) => ref in s'.own.launches && s'.own.launches[ref].saved == Some(saved)
       case DoObserveWait(r, waited) => r in s'.own.runs && s'.own.runs[r].waited == Some(waited)
       case DoFinishReconcile(r, saved) => r in s'.own.runs && s'.own.runs[r].journaled == Some(saved)
       case _ => true)
    case Resuming(r) =>
      (match r
       case DoCallResume(id, outcome) => id in s'.own.resumes && s'.own.resumes[id].start == outcome
       case DoSettleResume(id, confirmed, _) => id in s'.own.resumes && s'.own.resumes[id].confirmed == Some(confirmed)
       case DoAnswerStored(id) => id in s'.own.resumes && s'.own.resumes[id].stored == Some(s.own.attempts[id])
       case _ => true)
    case Controlling(c) =>
      (match c
       case DoReserveIntent(ref, answer) => ref in s'.ctl.tickets && s'.ctl.tickets[ref].reserved == Some(answer)
       case DoApplyControl(ref, effect) => ref in s'.ctl.tickets && s'.ctl.tickets[ref].applied == Some(effect)
       case DoRecordControl(ref, saved) => ref in s'.ctl.tickets && s'.ctl.tickets[ref].saved == saved
       case _ => true)
    case Shutting(d) =>
      (match d
       case DoCloseTerminal(p, run, ok) => p in s'.life.shutdowns && run in s'.life.shutdowns[p].closes && s'.life.shutdowns[p].closes[run] == ok
       case DoSettleShutdown(p, saved) => p in s'.life.shutdowns && s'.life.shutdowns[p].saved == Some(saved)
       case _ => true)
    case _ => true
  }

  lemma {:induction false} AnswersAreRecorded(s: State, step: Step)
    requires Enabled(s, step)
    ensures Records(s, step)
  {
    match step
    case Launching(l) => LaunchRecords(s, l);
    case Resuming(r) => ResumeRecords(s, r);
    case Controlling(c) => ControlRecords(s, c);
    case Shutting(d) => ShutdownRecords(s, d);
    case _ =>
  }

  lemma {:induction false} LaunchRecords(s: State, step: LaunchStep)
    requires LaunchEnabled(s, step)
    ensures Records(s, Launching(step))
  {
  }

  lemma {:induction false} ResumeRecords(s: State, step: ResumeStep)
    requires ResumeEnabled(s, step)
    ensures Records(s, Resuming(step))
  {
  }

  lemma {:induction false} ControlRecords(s: State, step: ControlStep)
    requires ControlEnabled(s, step)
    ensures Records(s, Controlling(step))
  {
  }

  lemma {:induction false} ShutdownRecords(s: State, step: ShutdownStep)
    requires ShutdownEnabled(s, step)
    ensures Records(s, Shutting(step))
  {
    hide BindingOf, HasUncertain, ConfirmReply, PreviewReply, CancelReply;
  }

  // ---- And never rewritten ---------------------------------------------------------

  predicate Stays<T(==)>(a: Option<T>, b: Option<T>) { a.Some? ==> b == a }

  predicate LaunchStays(t: LaunchTicket, t': LaunchTicket)
  {
    (!t.start.NotCalled? ==> t'.start == t.start) && Stays(t.saved, t'.saved)
  }

  predicate ResumeStays(t: ResumeTicket, t': ResumeTicket)
  {
    (!t.start.NotCalled? ==> t'.start == t.start) && Stays(t.stored, t'.stored) && Stays(t.confirmed, t'.confirmed)
  }

  predicate RunStays(r: OwnedRun, r': OwnedRun) { Stays(r.waited, r'.waited) && Stays(r.journaled, r'.journaled) }

  predicate ControlStays(t: ControlTicket, t': ControlTicket)
  {
    Stays(t.reserved, t'.reserved) && Stays(t.applied, t'.applied)
    && (t.phase.Finishing? || t.phase.Done? ==> t'.saved == t.saved && (t'.phase.Finishing? || t'.phase.Done?))
  }

  predicate DecisionStays(t: ShutdownTicket, t': ShutdownTicket)
  {
    (forall r :: r in t.closes ==> r in t'.closes && t'.closes[r] == t.closes[r]) && Stays(t.saved, t'.saved)
  }

  ghost predicate OwnershipStays(o: Ownership, o': Ownership)
  {
    (forall ref :: ref in o.launches ==> ref in o'.launches && LaunchStays(o.launches[ref], o'.launches[ref]))
    && (forall id :: id in o.resumes ==> id in o'.resumes && ResumeStays(o.resumes[id], o'.resumes[id]))
    && (forall r :: r in o.runs ==> r in o'.runs && RunStays(o.runs[r], o'.runs[r]))
  }

  ghost predicate ControlsStay(c: Controls, c': Controls)
  {
    forall ref :: ref in c.tickets ==> ref in c'.tickets && ControlStays(c.tickets[ref], c'.tickets[ref])
  }

  ghost predicate DecisionsStay(l: Lifecycle, l': Lifecycle)
  {
    forall p :: p in l.shutdowns ==> p in l'.shutdowns && DecisionStays(l.shutdowns[p], l'.shutdowns[p])
  }

  ghost predicate Remembered(s: State, s': State)
  {
    OwnershipStays(s.own, s'.own) && ControlsStay(s.ctl, s'.ctl) && DecisionsStay(s.life, s'.life)
  }

  lemma {:induction false} LaunchTicketStays(s: State, step: LaunchStep)
    requires LaunchEnabled(s, step) && L.TicketStep(step) && step.ref in s.own.launches
    requires LaunchEntry(s.epoch, s.own, step.ref) && O.LaunchAnswered(s.own.launches[step.ref])
    ensures var o, o' := s.own, LaunchOwnership(s, step); var r := o.launches[step.ref].snapshot.run;
            step.ref in o'.launches && LaunchStays(o.launches[step.ref], o'.launches[step.ref])
            && (r in o.runs && o.launches[step.ref].starting ==> r in o'.runs && RunStays(o.runs[r], o'.runs[r]))
  {
  }

  lemma {:induction false} LaunchRemembers(s: State, step: LaunchStep)
    requires RunEntries(s.own) && LaunchEntries(s.epoch, s.own) && O.Answered(s.own) && LaunchEnabled(s, step)
    ensures OwnershipStays(s.own, LaunchOwnership(s, step))
  {
    hide LaunchEntry, O.LaunchAnswered, O.ResumeAnswered, O.RunAnswered, OwnershipStays, LaunchStays, RunStays, LaunchOwnership, L.LaunchMove;
    if L.TicketStep(step) {
      O.LaunchHasTicket(s, step);
      LaunchTicketStays(s, step);
      L.TicketMoves(s, step);
      LaunchFrame(s.epoch, s.own, LaunchOwnership(s, step), step.ref);
    } else {
      ReconcileRemembers(s, step);
    }
  }

  lemma {:induction false} ReconcileRemembers(s: State, step: LaunchStep)
    requires O.Answered(s.own) && LaunchEnabled(s, step) && !L.TicketStep(step)
    ensures OwnershipStays(s.own, LaunchOwnership(s, step))
  {
    if !step.DoAdmitLaunch? { O.AnsweredAt(s.own, step.run); }
    hide O.Answered, OwnershipStays, AdmitLaunch, ObserveWait, FinishReconcile, O.RunAnswered;
    match step
    case DoAdmitLaunch(request, ref) => AdmissionStays(s.own, request, ref);
    case DoObserveWait(r, waited) => WaitStays(s.own, r, waited);
    case DoFinishReconcile(r, saved) => SaveStays(s.own, r, saved);
    case _ =>
  }

  lemma {:induction false} AdmissionStays(o: Ownership, request: LaunchRequest, ref: Ref)
    requires ref !in o.launches
    ensures OwnershipStays(o, AdmitLaunch(o, request, ref))
  {
  }

  lemma {:induction false} WaitStays(o: Ownership, r: RunId, waited: bool)
    requires r in o.runs && o.runs[r].phase == Waiting && O.RunAnswered(o, r)
    ensures OwnershipStays(o, ObserveWait(o, r, waited))
  {
    assert o.runs[r].waited.None?;
    hide O.RunAnswered;
  }

  lemma {:induction false} SaveStays(o: Ownership, r: RunId, saved: bool)
    requires r in o.runs && o.runs[r].phase.SavingExit? && O.RunAnswered(o, r)
    ensures OwnershipStays(o, FinishReconcile(o, r, saved))
  {
    assert o.runs[r].journaled.None?;
    hide O.RunAnswered;
  }

  lemma {:induction false} LaunchFrame(epoch: nat, o: Ownership, o': Ownership, ref: Ref)
    requires L.LaunchMove(epoch, o, o', ref) && LaunchStays(o.launches[ref], o'.launches[ref])
    requires var r := o.launches[ref].snapshot.run; r in o.runs && o.launches[ref].starting ==> r in o'.runs && RunStays(o.runs[r], o'.runs[r])
    ensures OwnershipStays(o, o')
  {
  }

  lemma {:induction false} ResumeFrame(epoch: nat, o: Ownership, o': Ownership, id: RequestId)
    requires R.ResumeMove(epoch, o, o', id) && ResumeStays(o.resumes[id], o'.resumes[id])
    requires var r := o.resumes[id].snapshot.run; r in o.runs && o.resumes[id].starting ==> r in o'.runs && RunStays(o.runs[r], o'.runs[r])
    ensures OwnershipStays(o, o')
  {
  }

  lemma {:induction false} EachStays(o: Ownership)
    ensures OwnershipStays(o, o)
  {
  }

  lemma {:induction false} ResumeTicketStays(s: State, step: ResumeStep)
    requires ResumeEnabled(s, step) && !step.DoAdmitResume? && RequestOf(step) in s.own.resumes
    requires ResumeEntry(s.epoch, s.own, RequestOf(step)) && O.ResumeAnswered(s.own, RequestOf(step))
    ensures var o, o', id := s.own, ResumeOwnership(s, step), RequestOf(step); var r := o.resumes[id].snapshot.run;
            id in o'.resumes && ResumeStays(o.resumes[id], o'.resumes[id])
            && (r in o.runs && o.resumes[id].starting ==> r in o'.runs && RunStays(o.runs[r], o'.runs[r]))
  {
  }

  lemma {:induction false} ResumeRemembers(s: State, step: ResumeStep)
    requires RunEntries(s.own) && ResumeEntries(s.epoch, s.own) && AttemptsCounted(s.epoch, s.own)
    requires O.Answered(s.own) && ResumeEnabled(s, step)
    ensures OwnershipStays(s.own, ResumeOwnership(s, step))
  {
    hide ResumeEntry, O.LaunchAnswered, O.ResumeAnswered, O.RunAnswered, ResumeStays, RunStays, AttemptsCounted, R.ResumeMove, ResumeOwnership;
    if step.DoAdmitResume? {
      ResumeAdmissionStays(s, step.resume);
    } else {
      O.ResumeHasTicket(s, step);
      ResumeTicketStays(s, step);
      R.TicketMoves(s, step);
      ResumeFrame(s.epoch, s.own, ResumeOwnership(s, step), RequestOf(step));
    }
  }

  lemma {:induction false} ResumeAdmissionStays(s: State, request: ResumeRequest)
    requires ResumeEnabled(s, DoAdmitResume(request))
    ensures OwnershipStays(s.own, ResumeOwnership(s, DoAdmitResume(request)))
  {
  }

  lemma {:induction false} ControlTicketStays(s: State, step: ControlStep)
    requires ControlEnabled(s, step) && !step.DoAdmitControl? && step.ref in s.ctl.tickets && C.ControlAnswered(s.ctl, step.ref)
    ensures step.ref in ControlControls(s, step).tickets && ControlStays(s.ctl.tickets[step.ref], ControlControls(s, step).tickets[step.ref])
  {
  }

  lemma {:induction false} ControlRemembers(s: State, step: ControlStep)
    requires CtlInv(s.epoch, s.own, s.ctl) && C.AllAnswered(s.ctl) && ControlEnabled(s, step)
    ensures ControlsStay(s.ctl, ControlControls(s, step))
  {
    hide CtlInv, C.ControlAnswered;
    if !step.DoAdmitControl? {
      P.MineOf(s.epoch, s.own, s.ctl, step.ref);
      hide ControlEnabled, ControlControls, ControlEntry;
      ControlTicketStays(s, step);
      P.TicketMoves(s, step);
    }
  }

  lemma {:induction false} DecisionTicketStays(s: State, step: ShutdownStep)
    requires ShutdownEnabled(s, step) && !step.DoPreviewShutdown? && !step.DoCancelShutdown? && !step.DoConfirmShutdown?
    requires step.preview in s.life.shutdowns && D.DecisionAnswered(s.life.shutdowns[step.preview])
    ensures step.preview in ShutdownLifecycle(s, step).shutdowns
            && DecisionStays(s.life.shutdowns[step.preview], ShutdownLifecycle(s, step).shutdowns[step.preview])
  {
    hide FinishShutdown, CheckShutdown, CommitShutdown, CloseTerminal, SettleShutdown, BindingOf, HasUncertain, D.DecisionAnswered, DecisionStays;
    var l := s.life;
    match step
    case DoRefuseShutdown(p, error) => FinishStays(l, p, ShutdownRejected, Some(error));
    case DoCheckShutdown(p) => CheckStays(l, p, s.gate.revision, HasUncertain(s));
    case DoDoubtShutdown(p) => FinishStays(l, p, ShutdownUnknown, Some(ErrUnknown));
    case DoCommitShutdown(p) => CommitStays(s.epoch, l, p);
    case DoCloseTerminal(p, run, ok) => CloseStays(l, p, run, ok);
    case DoSettleShutdown(p, saved) => SettleStays(l, p, saved);
  }

  lemma {:induction false} FinishStays(l: Lifecycle, p: PreviewId, outcome: ShutdownOutcome, error: Option<Failure>)
    requires p in l.shutdowns
    ensures p in FinishShutdown(l, p, outcome, 0, error, false).shutdowns
    ensures DecisionStays(l.shutdowns[p], FinishShutdown(l, p, outcome, 0, error, false).shutdowns[p])
  {
  }

  lemma {:induction false} CheckStays(l: Lifecycle, p: PreviewId, revision: nat, doubtful: bool)
    requires p in l.shutdowns && l.shutdowns[p].phase.Revalidating?
    ensures p in CheckShutdown(l, p, revision, doubtful).shutdowns
    ensures DecisionStays(l.shutdowns[p], CheckShutdown(l, p, revision, doubtful).shutdowns[p])
  {
  }

  lemma {:induction false} CommitStays(epoch: nat, l: Lifecycle, p: PreviewId)
    requires p in l.shutdowns
    ensures p in CommitShutdown(epoch, l, p).shutdowns && DecisionStays(l.shutdowns[p], CommitShutdown(epoch, l, p).shutdowns[p])
  {
  }

  lemma {:induction false} CloseStays(l: Lifecycle, p: PreviewId, run: RunId, ok: bool)
    requires p in l.shutdowns && l.shutdowns[p].phase.Closing? && D.DecisionAnswered(l.shutdowns[p]) && run in l.shutdowns[p].phase.todo
    ensures p in CloseTerminal(l, p, run, ok).shutdowns && DecisionStays(l.shutdowns[p], CloseTerminal(l, p, run, ok).shutdowns[p])
  {
  }

  lemma {:induction false} SettleStays(l: Lifecycle, p: PreviewId, saved: bool)
    requires p in l.shutdowns && l.shutdowns[p].phase.Closing? && D.DecisionAnswered(l.shutdowns[p])
    ensures p in SettleShutdown(l, p, saved).shutdowns && DecisionStays(l.shutdowns[p], SettleShutdown(l, p, saved).shutdowns[p])
  {
  }

  lemma {:induction false} ShutdownRemembers(s: State, step: ShutdownStep)
    requires Shapes(s.life) && Coordinated(s.gate, s.life) && D.DecisionsAnswered(s.life) && ShutdownEnabled(s, step)
    ensures DecisionsStay(s.life, ShutdownLifecycle(s, step))
  {
    if step.DoPreviewShutdown? || step.DoCancelShutdown? || step.DoConfirmShutdown? {
      ConfirmationStays(s, step);
    } else {
      assert step.preview in s.life.shutdowns;
      hide ShutdownLifecycle, ShutdownEnabled, D.DecisionAnswered, ShutdownShape, Coordinated;
      DecisionTicketStays(s, step);
      SD.SectionMoves(s, step);
    }
  }

  lemma {:induction false} ConfirmationStays(s: State, step: ShutdownStep)
    requires ShutdownEnabled(s, step) && (step.DoPreviewShutdown? || step.DoCancelShutdown? || step.DoConfirmShutdown?)
    ensures DecisionsStay(s.life, ShutdownLifecycle(s, step))
  {
    hide BindingOf, HasUncertain, FinishShutdown, CheckShutdown, CommitShutdown, CloseTerminal, SettleShutdown;
  }

  lemma {:induction false} StepRemembers(s: State, step: Step)
    requires Inv(s) && Exact(s) && Enabled(s, step) && !step.Crash?
    ensures Remembered(s, Apply(s, step))
  {
    hide Inv, O.Answered, C.AllAnswered, LaunchEnabled, ResumeEnabled, ControlEnabled, ShutdownEnabled, LifecycleEnabled;
    hide RunEntries, LaunchEntries, ResumeEntries, AttemptsCounted, CtlInv, Shapes, Coordinated;
    hide LaunchOwnership, ResumeOwnership, ControlControls, ShutdownLifecycle, LifecycleLifecycle, D.DecisionsAnswered, OwnershipStays;
    Entries(s);
    EachStays(s.own);
    match step
    case Launching(l) => LaunchRemembers(s, l);
    case Resuming(r) => ResumeRemembers(s, r);
    case Controlling(c) => ControlRemembers(s, c);
    case Shutting(d) => ShutdownRemembers(s, d);
    case Maintaining(u) => Finality.MaintenanceIsFinal(s, u);
  }

  lemma {:induction false} Remembers(a: State, b: State, c: State)
    requires Remembered(a, b) && Remembered(b, c)
    ensures Remembered(a, c)
  {
    forall ref | ref in a.own.launches ensures LaunchStays(a.own.launches[ref], c.own.launches[ref]) { assert ref in b.own.launches; }
    forall id | id in a.own.resumes ensures ResumeStays(a.own.resumes[id], c.own.resumes[id]) { assert id in b.own.resumes; }
    forall r | r in a.own.runs ensures RunStays(a.own.runs[r], c.own.runs[r]) { assert r in b.own.runs; }
    forall ref | ref in a.ctl.tickets ensures ControlStays(a.ctl.tickets[ref], c.ctl.tickets[ref]) { assert ref in b.ctl.tickets; }
    forall p | p in a.life.shutdowns ensures DecisionStays(a.life.shutdowns[p], c.life.shutdowns[p]) { assert p in b.life.shutdowns; }
  }

  /** Within an epoch the record of an answer never changes. */
  lemma {:induction false} RecordsStay(s: State, steps: seq<Step>)
    requires Inv(s) && Exact(s) && Legal(s, steps) && NoCrash(steps)
    ensures Remembered(s, After(s, steps))
    decreases |steps|
  {
    hide Inv, Exact, Enabled, Apply;
    if steps != [] {
      hide Remembered;
      StepRemembers(s, steps[0]);
      StepAnswers(s, steps[0]);
      StepKeeps(s, steps[0]);
      RecordsStay(Apply(s, steps[0]), steps[1..]);
      Remembers(s, Apply(s, steps[0]), After(s, steps));
    }
  }
}
