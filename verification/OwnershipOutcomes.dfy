/** What a launch and a resume answer, and what their run looks like, for every
    combination of answers that the ports gave along the way. */
module OwnershipOutcomes {
  import opened Options
  import opened RuntimeState
  import opened LaunchSteps
  import opened ResumeSteps
  import opened OwnershipInvariants
  import L = LaunchProofs
  import R = ResumeProofs

  function Descriptor(run: RunId, pid: int, uncertain: bool): RunSnapshot
  {
    RunSnapshot(run, if pid > 0 then Live else Reserved, uncertain)
  }

  // ---- Launch -------------------------------------------------------------------

  /** The child started under a real process id and the journal has it. */
  predicate LaunchPublished(t: LaunchTicket) { t.start.Child? && t.start.pid > 0 && t.saved == Some(true) }

  predicate LaunchAnswered(t: LaunchTicket)
  {
    match t.phase
    case Finished(stranded) =>
      t.aborted
      || if t.start.Child? then
           t.saved.Some? && !stranded && t.error == (if LaunchPublished(t) then None else Some(ErrUnknown))
           && t.result == Some(Descriptor(t.snapshot.run, t.start.pid, !LaunchPublished(t)))
         else if t.starting then
           t.error == Some(if stranded then ErrUnknown else ErrOther)
           && t.result == Some(RunSnapshot(t.snapshot.run, Reserved, stranded)) && (t.start.PossibleChild() ==> stranded)
         else t.error.Some? && t.result.None? && !stranded
    case SavingUncertain => t.saved.None? && t.result == Some(RunSnapshot(t.snapshot.run, Reserved, true))
    case _ => t.saved.None? && t.error.None?
  }

  // ---- Resume -------------------------------------------------------------------

  /** The ticket was answered from a durable attempt. */
  predicate AnsweredFrom(o: Ownership, id: RequestId, a: Attempt)
    requires id in o.resumes
  {
    var t := o.resumes[id];
    var same := a.selection == t.request.selection;
    id in o.attempts && o.attempts[id] == a && !t.attached && t.start.NotCalled?
    && t.result == ResumeResult(if same then Some(a.phase) else None, false)
    && (t.error.None? <==> same && a.phase == AttemptConfirmed)
    && (t.error == Some(ErrChanged) <==> !same)
    && (t.error == Some(ErrRejected) <==> same && a.phase == AttemptFailedBeforeStart)
    && (t.error == Some(ErrUnknown) <==>
          same && (a.phase == AttemptReserved || a.phase == AttemptStarted || a.phase == AttemptUnknown))
  }

  predicate ResumeAnswered(o: Ownership, id: RequestId)
    requires id in o.resumes
  {
    var t := o.resumes[id];
    match t.phase
    case ResumeFinished =>
      if t.stored.Some? then t.confirmed.None? && AnsweredFrom(o, id, t.stored.value)
      else if t.attached then
        t.confirmed.Some?
        && t.result == ResumeResult(Some(if t.confirmed.value then AttemptConfirmed else AttemptUnknown), true)
        && t.error == (if t.confirmed.value then None else Some(ErrUnknown))
      else
        t.confirmed.None? && t.error.Some? && t.result.phase != Some(AttemptConfirmed)
        && (t.start.PossibleChild() ==> t.error == Some(ErrUnknown) && t.result.phase == Some(AttemptUnknown))
        && (t.result.phase == Some(AttemptFailedBeforeStart) ==>
              id in o.attempts && o.attempts[id].phase == AttemptFailedBeforeStart)
    case ResumeCompleting(confirmed) => t.confirmed == Some(confirmed) && t.stored.None? && t.error.None?
    case _ => t.confirmed.None? && t.stored.None? && t.error.None?
  }

  // ---- Owned runs ---------------------------------------------------------------

  /** From publication on: `good` says that the run was published without doubt, the
      rest follows from the process id and from what Wait and the journal answered. */
  predicate RunFollows(r: OwnedRun, pid: int, good: bool)
  {
    match r.phase
    case Unpublished => false
    case Waiting =>
      r.waited.None? && r.journaled.None? && !r.waitFailed && !r.exitSaved
      && r.published == good && r.snapshot == Descriptor(r.snapshot.run, pid, !good)
    case SavingExit(known) =>
      r.waited.Some? && known == (r.waited.value && pid > 0) && r.journaled.None? && r.waitFailed == !known && !r.exitSaved
      && r.published == (good && known)
      && r.snapshot == RunSnapshot(r.snapshot.run, EndState(known, pid), !(good && known))
    case Reconciled(known) =>
      r.waited.Some? && known == (r.waited.value && pid > 0) && r.journaled.Some? && r.waitFailed == !known
      && r.exitSaved == (known && r.journaled.value)
      && r.published == (good && known && r.journaled.value)
      && r.snapshot == RunSnapshot(r.snapshot.run, EndState(known, pid), !(good && known && r.journaled.value))
  }

  function EndState(known: bool, pid: int): RunState { if known then Exited else if pid > 0 then Live else Reserved }

  /** Before publication: transferred, and for a resume perhaps already confirmed. */
  predicate RunBegins(r: OwnedRun, pid: int, settled: Option<bool>)
  {
    r.phase == Unpublished && r.waited.None? && r.journaled.None? && !r.waitFailed && !r.exitSaved
    && r.published == (settled == Some(true))
    && r.snapshot == Descriptor(r.snapshot.run, pid, if settled.Some? then !settled.value else pid <= 0)
  }

  /** An owned run goes back to the ticket that drew it. */
  predicate RunAnswered(o: Ownership, r: RunId)
    requires r in o.runs
  {
    r in o.drawn && o.runs[r].snapshot.run == r
    && match o.drawn[r]
       case ByLaunch(_, ref) =>
         ref in o.launches && var t := o.launches[ref];
         t.starting && t.snapshot.run == r && t.start.Child?
         && if t.phase.Publishing? then RunBegins(o.runs[r], t.start.pid, None)
            else t.phase.Finished? && RunFollows(o.runs[r], t.start.pid, LaunchPublished(t))
       case ByResume(_, id) =>
         id in o.resumes && var t := o.resumes[id];
         t.attached && t.snapshot.run == r && t.start.Child? && (t.confirmed == Some(true) ==> t.start.pid > 0)
         && if t.phase.ResumeFinished? then RunFollows(o.runs[r], t.start.pid, t.confirmed == Some(true))
            else RunBegins(o.runs[r], t.start.pid, t.confirmed)
  }

  ghost predicate Answered(o: Ownership)
  {
    (forall ref :: ref in o.launches ==> LaunchAnswered(o.launches[ref]))
    && (forall id :: id in o.resumes ==> ResumeAnswered(o, id))
    && (forall r :: r in o.runs ==> RunAnswered(o, r))
  }

  // ---- Launch steps -------------------------------------------------------------

  /** Its own ticket answers as it should. */
  lemma {:induction false} LaunchTicketAnswers(s: State, step: LaunchStep)
    requires LaunchEnabled(s, step) && L.TicketStep(step)
    requires step.ref in s.own.launches && LaunchEntry(s.epoch, s.own, step.ref) && LaunchAnswered(s.own.launches[step.ref])
    requires forall r :: r in s.own.runs ==> RunAnswered(s.own, r)
    ensures step.ref in LaunchOwnership(s, step).launches && LaunchAnswered(LaunchOwnership(s, step).launches[step.ref])
  {
    if step.DoPublishLaunch? { assert RunAnswered(s.own, s.own.launches[step.ref].snapshot.run); }
  }

  /** And so does the run it owns. */
  lemma {:induction false} LaunchRunAnswers(s: State, step: LaunchStep, r: RunId)
    requires LaunchEnabled(s, step) && L.TicketStep(step) && step.ref in s.own.launches
    requires LaunchEntry(s.epoch, s.own, step.ref) && r == LaunchOwnership(s, step).launches[step.ref].snapshot.run
    requires s.own.launches[step.ref].starting && r in LaunchOwnership(s, step).runs
    requires r in s.own.runs ==> RunAnswered(s.own, r)
    ensures RunAnswered(LaunchOwnership(s, step), r)
  {
  }

  lemma {:induction false} LaunchTicketStep(s: State, step: LaunchStep)
    requires RunEntries(s.own) && LaunchEntries(s.epoch, s.own) && Answered(s.own) && LaunchEnabled(s, step) && L.TicketStep(step)
    ensures Answered(LaunchOwnership(s, step))
  {
    hide LaunchEntry, LaunchAnswered, RunAnswered, ResumeAnswered, LaunchOwnership, LaunchEnabled;
    var o, o', ref := s.own, LaunchOwnership(s, step), step.ref;
    LaunchHasTicket(s, step);
    LaunchTicketAnswers(s, step);
    L.TicketMoves(s, step);
    forall r | r in o'.runs ensures RunAnswered(o', r) {
      if o.launches[ref].starting && r == o'.launches[ref].snapshot.run {
        LaunchRunAnswers(s, step, r);
      } else {
        OtherRunLaunch(s, step, r);
      }
    }
    forall id | id in o'.resumes ensures ResumeAnswered(o', id) { SameResumeAnswered(o, o', id); }
  }

  lemma {:induction false} LaunchHasTicket(s: State, step: LaunchStep)
    requires LaunchEnabled(s, step) && L.TicketStep(step)
    ensures step.ref in s.own.launches
  {
  }

  lemma {:induction false} SameResumeAnswered(o: Ownership, o': Ownership, id: RequestId)
    requires id in o.resumes && id in o'.resumes && o'.resumes[id] == o.resumes[id]
    requires (id in o'.attempts <==> id in o.attempts) && (id in o.attempts ==> o'.attempts[id] == o.attempts[id])
    ensures ResumeAnswered(o', id) <==> ResumeAnswered(o, id)
  {
  }

  lemma {:induction false} OtherRunLaunch(s: State, step: LaunchStep, r: RunId)
    requires LaunchEnabled(s, step) && L.TicketStep(step) && step.ref in s.own.launches
    requires L.LaunchMove(s.epoch, s.own, LaunchOwnership(s, step), step.ref) && LaunchEntry(s.epoch, s.own, step.ref)
    requires r in LaunchOwnership(s, step).runs && (r in s.own.runs ==> RunAnswered(s.own, r))
    requires s.own.launches[step.ref].starting ==> r != LaunchOwnership(s, step).launches[step.ref].snapshot.run
    ensures RunAnswered(LaunchOwnership(s, step), r)
  {
    hide LaunchOwnership, LaunchEnabled, RunFollows, RunBegins;
  }

  lemma {:induction false} LaunchAdmissionAnswers(o: Ownership, request: LaunchRequest, ref: Ref)
    requires Answered(o) && ref !in o.launches
    ensures Answered(AdmitLaunch(o, request, ref))
  {
    hide RunFollows, RunBegins, ResumeAnswered;
    var o' := AdmitLaunch(o, request, ref);
    forall r | r in o'.runs ensures RunAnswered(o', r) { assert RunAnswered(o, r); }
    forall id | id in o'.resumes ensures ResumeAnswered(o', id) { SameResumeAnswered(o, o', id); }
  }

  // ---- Reconciliation -----------------------------------------------------------

  lemma {:induction false} RunStepAnswers(o: Ownership, o': Ownership, r: RunId)
    requires r in o.runs && r in o'.runs && o' == o.(runs := o.runs[r := o'.runs[r]], active := o'.active)
    requires Answered(o) && (RunAnswered(o, r) ==> RunAnswered(o', r))
    ensures Answered(o')
  {
    hide RunFollows, RunBegins, ResumeAnswered;
    forall q | q in o'.runs && q != r ensures RunAnswered(o', q) { assert RunAnswered(o, q); }
    forall id | id in o'.resumes ensures ResumeAnswered(o', id) { SameResumeAnswered(o, o', id); }
  }

  lemma {:induction false} WaitAnswers(o: Ownership, r: RunId, waited: bool)
    requires r in o.runs && o.runs[r].phase == Waiting && RunAnswered(o, r)
    ensures RunAnswered(ObserveWait(o, r, waited), r)
  {
  }

  lemma {:induction false} ReconcileAnswers(o: Ownership, r: RunId, saved: bool)
    requires r in o.runs && o.runs[r].phase.SavingExit? && RunAnswered(o, r)
    ensures RunAnswered(FinishReconcile(o, r, saved), r)
  {
  }

  lemma {:induction false} LaunchKeepsAnswers(s: State, step: LaunchStep)
    requires RunEntries(s.own) && LaunchEntries(s.epoch, s.own) && Answered(s.own) && LaunchEnabled(s, step)
    ensures Answered(LaunchOwnership(s, step))
  {
    hide Answered, RunAnswered, LaunchEntries, RunEntries;
    match step
    case DoAdmitLaunch(request, ref) => LaunchAdmissionAnswers(s.own, request, ref);
    case DoObserveWait(r, waited) => AnsweredAt(s.own, r); WaitAnswers(s.own, r, waited); RunStepAnswers(s.own, ObserveWait(s.own, r, waited), r);
    case DoFinishReconcile(r, saved) => AnsweredAt(s.own, r); ReconcileAnswers(s.own, r, saved); RunStepAnswers(s.own, FinishReconcile(s.own, r, saved), r);
    case _ => LaunchTicketStep(s, step);
  }

  lemma {:induction false} AnsweredAt(o: Ownership, r: RunId)
    requires Answered(o) && r in o.runs
    ensures RunAnswered(o, r)
  {
  }

  // ---- Resume steps -------------------------------------------------------------

  lemma {:induction false} ResumeTicketAnswers(s: State, step: ResumeStep)
    requires ResumeEnabled(s, step) && !step.DoAdmitResume? && RequestOf(step) in s.own.resumes
    requires ResumeEntry(s.epoch, s.own, RequestOf(step)) && ResumeAnswered(s.own, RequestOf(step))
    ensures var o', id := ResumeOwnership(s, step), RequestOf(step); id in o'.resumes && ResumeAnswered(o', id)
  {
    if R.Ending(step) {
      hide ResumeAnswered, ResumeEntry, ResumeOwnership, ResumeEnabled;
      EndedTicketAnswers(s, step);
    } else {
      WorkingTicketAnswers(s, step);
    }
  }

  lemma {:induction false} EndedTicketAnswers(s: State, step: ResumeStep)
    requires ResumeEnabled(s, step) && R.Ending(step) && ResumeEntry(s.epoch, s.own, step.id) && ResumeAnswered(s.own, step.id)
    ensures step.id in ResumeOwnership(s, step).resumes && ResumeAnswered(ResumeOwnership(s, step), step.id)
  {
  }

  lemma {:induction false} WorkingTicketAnswers(s: State, step: ResumeStep)
    requires ResumeEnabled(s, step) && !step.DoAdmitResume? && !R.Ending(step) && RequestOf(step) in s.own.resumes
    requires ResumeEntry(s.epoch, s.own, RequestOf(step)) && ResumeAnswered(s.own, RequestOf(step))
    ensures var o', id := ResumeOwnership(s, step), RequestOf(step); id in o'.resumes && ResumeAnswered(o', id)
  {
  }

  lemma {:induction false} ResumeRunAnswers(s: State, step: ResumeStep, r: RunId)
    requires ResumeEnabled(s, step) && !step.DoAdmitResume? && RequestOf(step) in s.own.resumes
    requires ResumeEntry(s.epoch, s.own, RequestOf(step)) && ResumeAnswered(s.own, RequestOf(step))
    requires s.own.resumes[RequestOf(step)].starting && r == s.own.resumes[RequestOf(step)].snapshot.run
    requires r in ResumeOwnership(s, step).runs && (r in s.own.runs ==> RunAnswered(s.own, r))
    ensures RunAnswered(ResumeOwnership(s, step), r)
  {
  }

  lemma {:induction false} OtherRunResume(s: State, step: ResumeStep, r: RunId)
    requires ResumeEnabled(s, step) && !step.DoAdmitResume? && RequestOf(step) in s.own.resumes
    requires R.ResumeMove(s.epoch, s.own, ResumeOwnership(s, step), RequestOf(step)) && ResumeEntry(s.epoch, s.own, RequestOf(step))
    requires r in ResumeOwnership(s, step).runs && (r in s.own.runs ==> RunAnswered(s.own, r))
    requires s.own.resumes[RequestOf(step)].starting ==> r != s.own.resumes[RequestOf(step)].snapshot.run
    ensures RunAnswered(ResumeOwnership(s, step), r)
  {
    hide ResumeOwnership, ResumeEnabled, RunFollows, RunBegins;
  }

  lemma {:induction false} ResumeTicketStep(s: State, step: ResumeStep)
    requires RunEntries(s.own) && ResumeEntries(s.epoch, s.own) && AttemptsCounted(s.epoch, s.own)
    requires Answered(s.own) && ResumeEnabled(s, step) && !step.DoAdmitResume?
    ensures Answered(ResumeOwnership(s, step))
  {
    hide ResumeEntry, RunAnswered, ResumeAnswered, ResumeOwnership, ResumeEnabled, AttemptsCounted, RunEntries, LaunchAnswered;
    var o, o', id := s.own, ResumeOwnership(s, step), RequestOf(step);
    ResumeHasTicket(s, step);
    ResumeTicketAnswers(s, step);
    R.TicketMoves(s, step);
    forall r | r in o'.runs ensures RunAnswered(o', r) {
      if o.resumes[id].starting && r == o.resumes[id].snapshot.run {
        ResumeRunAnswers(s, step, r);
      } else {
        OtherRunResume(s, step, r);
      }
    }
    forall q | q in o'.resumes && q != id ensures ResumeAnswered(o', q) { SameResumeAnswered(o, o', q); }
  }

  lemma {:induction false} ResumeHasTicket(s: State, step: ResumeStep)
    requires ResumeEnabled(s, step) && !step.DoAdmitResume?
    ensures RequestOf(step) in s.own.resumes
  {
  }

  lemma {:induction false} ResumeAdmissionAnswers(o: Ownership, request: ResumeRequest)
    requires Answered(o) && request.id !in o.resumes
    ensures Answered(AdmitResume(o, request))
  {
    hide RunFollows, RunBegins;
    var o' := AdmitResume(o, request);
    forall r | r in o'.runs ensures RunAnswered(o', r) { assert RunAnswered(o, r); }
    forall id | id in o.resumes ensures ResumeAnswered(o', id) { SameResumeAnswered(o, o', id); }
  }

  lemma {:induction false} ResumeKeepsAnswers(s: State, step: ResumeStep)
    requires RunEntries(s.own) && ResumeEntries(s.epoch, s.own) && AttemptsCounted(s.epoch, s.own)
    requires Answered(s.own) && ResumeEnabled(s, step)
    ensures Answered(ResumeOwnership(s, step))
  {
    hide Answered, RunEntries, ResumeEntries, AttemptsCounted;
    match step
    case DoAdmitResume(request) => ResumeAdmissionAnswers(s.own, request);
    case _ => ResumeTicketStep(s, step);
  }

  // ---- Endings and waiters ---------------------------------------------------------

  /** What a resume that ends without an owned child answers, and whether its
      reservation comes back: only a possible child keeps it. */
  lemma {:induction false} EndingAnswers(s: State, step: ResumeStep)
    requires ResumeEnabled(s, step) && R.Ending(step) && ResumeEntry(s.epoch, s.own, step.id)
    ensures var o, o' := s.own, ResumeOwnership(s, step);
            step.id in o'.resumes && var t := o'.resumes[step.id];
            t.complete && t.possibleChild == step.DoStrandResume? && !t.result.owned
            && o'.pending == o.pending - (if step.DoStrandResume? then 0 else 1) && o'.runs == o.runs
            && (step.DoFailResume? ==> t.error == Some(step.error) && t.result.phase.None?)
            && (step.DoFailReservation? ==> t.error == Some(step.error) && t.result.phase == Some(AttemptUnknown))
            && (step.DoFailBeforeStart? ==>
                  t.error == Some(if step.saved then step.error else ErrUnknown)
                  && t.result.phase == Some(if step.saved then AttemptFailedBeforeStart else AttemptUnknown)
                  && (step.saved ==> step.id in o'.attempts && o'.attempts[step.id].phase == AttemptFailedBeforeStart))
            && (step.DoStrandResume? ==> t.error == Some(ErrUnknown) && t.result.phase == Some(AttemptUnknown))
            && (step.DoAnswerStored? ==> AnsweredFrom(o', step.id, o.attempts[step.id]))
  {
  }

  /** A waiter that joins and leaves again changes nothing, so a launch is abandoned
      only when every waiter is gone. */
  lemma {:induction false} JoinThenLeave(o: Ownership, ref: Ref)
    requires ref in o.launches && o.launches[ref].waiters > 0
    ensures LeaveLaunch(JoinLaunch(o, ref), ref) == o
  {
    assert o.launches == o.launches[ref := o.launches[ref]];
  }

  lemma {:induction false} JoinThenLeaveResume(o: Ownership, id: RequestId)
    requires id in o.resumes && o.resumes[id].waiters > 0
    ensures LeaveResume(JoinResume(o, id), id) == o
  {
    assert o.resumes == o.resumes[id := o.resumes[id]];
  }
}
