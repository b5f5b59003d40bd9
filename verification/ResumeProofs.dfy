/** Resume steps keep the ownership invariant. */
module ResumeProofs {
  import opened Options
  import opened RuntimeState
  import opened LaunchSteps
  import opened ResumeSteps
  import opened OwnershipInvariants
  import opened Counting

  /** What every resume step does beyond its own ticket: it may draw its identity,
      write its attempt, count its native call, and write its run. */
  ghost predicate ResumeMove(epoch: nat, o: Ownership, o': Ownership, id: RequestId)
  {
    id in o.resumes && id in o'.resumes
    && var t, t' := o.resumes[id], o'.resumes[id];
    o'.resumes == o.resumes[id := t']
    && o'.launches == o.launches && o'.index == o.index && o'.starts == o.starts
    && (t.starting ==> t'.starting && t'.snapshot.run == t.snapshot.run)
    && (o'.drawn == o.drawn || (!t.starting && t'.snapshot.run !in o.drawn && o'.drawn == o.drawn[t'.snapshot.run := ByResume(epoch, id)]))
    && (o'.runs == o.runs || (t.starting && t.snapshot.run in o'.runs && o'.runs == o.runs[t.snapshot.run := o'.runs[t.snapshot.run]]))
    && (o'.attempts == o.attempts
        || (id in o'.attempts && o'.attempts == o.attempts[id := o'.attempts[id]]
            && o'.attempts[id].creator == (if id in o.attempts then o.attempts[id].creator else epoch)))
    && (if t.start.NotCalled? && !t'.start.NotCalled? then t.phase.ResumeReserved? && o'.resumed == o.resumed + multiset{id}
        else o'.resumed == o.resumed && (t.start.NotCalled? <==> t'.start.NotCalled?))
  }

  lemma {:induction false} MoveKeepsResumes(epoch: nat, o: Ownership, o': Ownership, id: RequestId)
    requires ResumeEntries(epoch, o) && ResumeMove(epoch, o, o', id) && ResumeEntry(epoch, o', id)
    ensures ResumeEntries(epoch, o')
  {
    forall q | q in o'.resumes && q != id ensures ResumeEntry(epoch, o', q) {
      assert ResumeEntry(epoch, o, q) && ResumeEntry(epoch, o, id);
    }
  }

  lemma {:induction false} MoveKeepsAttempts(epoch: nat, o: Ownership, o': Ownership, id: RequestId)
    requires ResumeMove(epoch, o, o', id) && ResumeEntry(epoch, o, id) && AttemptsCounted(epoch, o)
    ensures AttemptsCounted(epoch, o')
  {
  }

  lemma {:induction false} MoveKeepsLaunches(epoch: nat, o: Ownership, o': Ownership, id: RequestId)
    requires ResumeMove(epoch, o, o', id) && ResumeEntry(epoch, o, id) && LaunchEntries(epoch, o)
    ensures LaunchEntries(epoch, o')
  {
    forall ref | ref in o'.launches ensures LaunchEntry(epoch, o', ref) { assert LaunchEntry(epoch, o, ref); }
  }

  lemma {:induction false} MoveKeepsRuns(epoch: nat, o: Ownership, o': Ownership, id: RequestId)
    requires ResumeMove(epoch, o, o', id) && ResumeEntry(epoch, o, id) && RunEntries(o)
    requires var r := o.resumes[id].snapshot.run; o'.runs != o.runs ==> o'.runs[r].snapshot.run == r && RunShape(o'.runs[r])
    ensures RunEntries(o')
  {
  }

  lemma {:induction false} MoveKeepsDrawn(epoch: nat, o: Ownership, o': Ownership, id: RequestId)
    requires ResumeMove(epoch, o, o', id) && ResumeEntry(epoch, o, id) && Drawn(epoch, o)
    ensures Drawn(epoch, o')
  {
  }

  /** The counters follow the ticket and its run. */
  ghost predicate Accounted(o: Ownership, o': Ownership, id: RequestId)
    requires id in o.resumes && id in o'.resumes
  {
    var r := o.resumes[id].snapshot.run;
    o'.pending == o.pending - One(HoldsResume(o.resumes[id])) + One(HoldsResume(o'.resumes[id]))
    && o'.active == o.active - (if o'.runs == o.runs then 0 else RunHold(o.runs, r) - RunHold(o'.runs, r))
    && o'.pending + o'.active <= o.pending + o.active
  }

  lemma {:induction false} MoveConserves(epoch: nat, o: Ownership, o': Ownership, id: RequestId)
    requires ResumeMove(epoch, o, o', id) && Accounted(o, o', id) && Conserved(o) && Bounded(o)
    ensures Conserved(o') && Bounded(o')
  {
    var r := o.resumes[id].snapshot.run;
    CountUpdate(o.resumes, HoldsResume, id, o'.resumes[id]);
    if o'.runs != o.runs { CountUpdate(o.runs, HoldsRun, r, o'.runs[r]); }
    assert o'.resumes.Keys == o.resumes.Keys;
    assert |o'.resumes.Keys| == |o'.resumes|;
  }

  /** A resume step in order: its own ticket, attempt and run, and the counters. */
  ghost predicate GoodMove(epoch: nat, o: Ownership, o': Ownership, id: RequestId)
  {
    ResumeMove(epoch, o, o', id) && ResumeEntry(epoch, o', id) && Accounted(o, o', id)
    && var r := o.resumes[id].snapshot.run; o'.runs != o.runs ==> o'.runs[r].snapshot.run == r && RunShape(o'.runs[r])
  }

  lemma {:induction false} MoveKeeps(epoch: nat, o: Ownership, o': Ownership, id: RequestId)
    requires OwnInv(epoch, o) && GoodMove(epoch, o, o', id)
    ensures OwnInv(epoch, o')
  {
    MoveConserves(epoch, o, o', id);
    MoveKeepsResumes(epoch, o, o', id);
    MoveKeepsAttempts(epoch, o, o', id);
    MoveKeepsLaunches(epoch, o, o', id);
    MoveKeepsRuns(epoch, o, o', id);
    MoveKeepsDrawn(epoch, o, o', id);
  }

  lemma {:induction false} JoinMoves(epoch: nat, o: Ownership, id: RequestId)
    requires id in o.resumes && ResumeEntry(epoch, o, id)
    ensures GoodMove(epoch, o, JoinResume(o, id), id)
  {
  }

  lemma {:induction false} LeaveMoves(epoch: nat, o: Ownership, id: RequestId)
    requires id in o.resumes && ResumeEntry(epoch, o, id) && o.resumes[id].waiters > 0
    ensures GoodMove(epoch, o, LeaveResume(o, id), id)
  {
  }

  /** Every ending before a transfer frees the reservation or strands it. */
  lemma {:induction false} EndMoves(epoch: nat, o: Ownership, o1: Ownership, id: RequestId, result: ResumeResult, error: Option<Failure>, possible: bool)
    requires id in o.resumes && ResumeEntry(epoch, o, id)
    requires !o.resumes[id].attached && !o.resumes[id].complete && !o.resumes[id].start.Child? && !result.owned
    requires possible == o.resumes[id].start.PossibleChild()
    requires o1 == o.(attempts := o1.attempts)
    requires o1.attempts == o.attempts
             || (id in o1.attempts && o1.attempts == o.attempts[id := o1.attempts[id]]
                 && o1.attempts[id].creator == (if id in o.attempts then o.attempts[id].creator else epoch))
    ensures GoodMove(epoch, o, Complete(o1, id, result, error, possible), id)
  {
  }

  lemma {:induction false} CommitMoves(epoch: nat, o: Ownership, id: RequestId, run: RunId)
    requires ResumeIn(o, id, ResumePreparing) && ResumeEntry(epoch, o, id) && RunEntries(o)
    requires !o.resumes[id].cancelled && run !in o.drawn
    ensures GoodMove(epoch, o, CommitResume(epoch, o, id, run), id)
  {
  }

  lemma {:induction false} CreateMoves(epoch: nat, o: Ownership, id: RequestId)
    requires ResumeIn(o, id, ResumeReserving) && ResumeEntry(epoch, o, id) && AttemptsCounted(epoch, o) && id !in o.attempts
    ensures GoodMove(epoch, o, CreateAttempt(epoch, o, id), id)
  {
  }

  lemma {:induction false} CallMoves(epoch: nat, o: Ownership, id: RequestId, outcome: StartOutcome)
    requires ResumeIn(o, id, ResumeReserved) && ResumeEntry(epoch, o, id) && !outcome.NotCalled?
    ensures GoodMove(epoch, o, CallResume(o, id, outcome), id)
  {
  }

  lemma {:induction false} TransferMoves(epoch: nat, o: Ownership, id: RequestId)
    requires ResumeIn(o, id, ResumeReturned) && ResumeEntry(epoch, o, id) && o.resumes[id].start.Child?
    ensures GoodMove(epoch, o, TransferResume(o, id), id)
  {
  }

  lemma {:induction false} StartedMoves(epoch: nat, o: Ownership, id: RequestId)
    requires ResumeIn(o, id, ResumeSettling) && ResumeEntry(epoch, o, id) && id in o.attempts
    ensures GoodMove(epoch, o, MarkStarted(o, id), id)
  {
  }

  lemma {:induction false} SettleMoves(epoch: nat, o: Ownership, id: RequestId, confirmed: bool, stored: AttemptPhase)
    requires ResumeIn(o, id, ResumeSettling) && ResumeEntry(epoch, o, id) && RunEntries(o)
    requires id in o.attempts && o.resumes[id].snapshot.run in o.runs && (confirmed ==> CleanStart(o.resumes[id]))
    ensures GoodMove(epoch, o, SettleResume(o, id, confirmed, stored), id)
  {
  }

  lemma {:induction false} CompleteMoves(epoch: nat, o: Ownership, id: RequestId)
    requires id in o.resumes && o.resumes[id].phase.ResumeCompleting? && ResumeEntry(epoch, o, id) && RunEntries(o)
    requires o.resumes[id].snapshot.run in o.runs
    ensures GoodMove(epoch, o, CompleteResume(o, id), id)
  {
  }

  // ---- Admission ----------------------------------------------------------

  lemma {:induction false} AdmitConserves(o: Ownership, request: ResumeRequest)
    requires Conserved(o) && request.id !in o.resumes && !Full(o)
    ensures Conserved(AdmitResume(o, request)) && Bounded(AdmitResume(o, request))
  {
    var o' := AdmitResume(o, request);
    CountUpdate(o.resumes, HoldsResume, request.id, o'.resumes[request.id]);
    OneMore(o.resumes, request.id, o'.resumes[request.id]);
  }

  lemma {:induction false} AdmitKeepsTickets(epoch: nat, o: Ownership, request: ResumeRequest)
    requires LaunchEntries(epoch, o) && ResumeEntries(epoch, o) && request.id !in o.resumes
    ensures var o' := AdmitResume(o, request); LaunchEntries(epoch, o') && ResumeEntries(epoch, o')
  {
    var o' := AdmitResume(o, request);
    forall ref | ref in o'.launches ensures LaunchEntry(epoch, o', ref) { assert LaunchEntry(epoch, o, ref); }
    forall id | id in o'.resumes && id != request.id ensures ResumeEntry(epoch, o', id) { assert ResumeEntry(epoch, o, id); }
  }

  lemma {:induction false} AdmitKeeps(epoch: nat, o: Ownership, request: ResumeRequest)
    requires OwnInv(epoch, o) && request.id !in o.resumes && !Full(o)
    ensures OwnInv(epoch, AdmitResume(o, request))
  {
    hide Conserved, Bounded, LaunchEntries, ResumeEntries;
    AdmitConserves(o, request);
    AdmitKeepsTickets(epoch, o, request);
  }

  // ---- All steps ----------------------------------------------------------

  predicate Ending(step: ResumeStep)
  {
    step.DoFailResume? || step.DoAnswerStored? || step.DoFailReservation? || step.DoFailBeforeStart? || step.DoStrandResume?
  }

  lemma {:induction false} EndingsMove(s: State, step: ResumeStep)
    requires ResumeEnabled(s, step) && Ending(step)
    requires ResumeEntry(s.epoch, s.own, step.id)
    ensures GoodMove(s.epoch, s.own, ResumeOwnership(s, step), step.id)
  {
    var e, o, id := s.epoch, s.own, step.id;
    match step
    case DoFailResume(_, error) => EndMoves(e, o, o, id, NoResult, Some(error), false);
    case DoAnswerStored(_) =>
      var a := o.attempts[id];
      var same := a.selection == o.resumes[id].request.selection;
      var o1 := SetResume(o, id, o.resumes[id].(stored := Some(a)));
      EndMoves(e, o1, o1, id, ResumeResult(if same then Some(a.phase) else None, false),
               if same then StoredError(a.phase) else Some(ErrChanged), false);
    case DoFailReservation(_, committed, error) =>
      var a := Attempt(o.resumes[id].request.selection, AttemptReserved, e);
      EndMoves(e, o, o.(attempts := if committed && id !in o.attempts then o.attempts[id := a] else o.attempts), id,
               ResumeResult(Some(AttemptUnknown), false), Some(error), false);
    case DoFailBeforeStart(_, saved, stored, error) =>
      EndMoves(e, o, StoreAttempt(o, id, stored), id,
               ResumeResult(Some(if saved then AttemptFailedBeforeStart else AttemptUnknown), false),
               Some(if saved then error else ErrUnknown), false);
    case DoStrandResume(_, stored) =>
      EndMoves(e, o, StoreAttempt(o, id, stored), id, ResumeResult(Some(AttemptUnknown), false), Some(ErrUnknown), true);
  }

  lemma {:induction false} TicketMoves(s: State, step: ResumeStep)
    requires RunEntries(s.own) && AttemptsCounted(s.epoch, s.own) && ResumeEnabled(s, step) && !step.DoAdmitResume?
    requires RequestOf(step) in s.own.resumes && ResumeEntry(s.epoch, s.own, RequestOf(step))
    ensures GoodMove(s.epoch, s.own, ResumeOwnership(s, step), RequestOf(step))
  {
    var o, id := s.own, RequestOf(step);
    hide GoodMove, ResumeEntry, RunEntries, AttemptsCounted;
    match step
    case DoJoinResume(_) => JoinMoves(s.epoch, o, id);
    case DoLeaveResume(_) => LeaveMoves(s.epoch, o, id);
    case DoCommitResume(_, run) => CommitMoves(s.epoch, o, id, run);
    case DoCreateAttempt(_) => CreateMoves(s.epoch, o, id);
    case DoCallResume(_, outcome) => CallMoves(s.epoch, o, id, outcome);
    case DoTransferResume(_) => TransferMoves(s.epoch, o, id);
    case DoMarkStarted(_) => StartedMoves(s.epoch, o, id);
    case DoSettleResume(_, confirmed, stored) => SettleMoves(s.epoch, o, id, confirmed, stored);
    case DoCompleteResume(_) => CompleteMoves(s.epoch, o, id);
    case _ => EndingsMove(s, step);
  }

  /** Every resume step keeps ownership in order. */
  lemma {:induction false} ResumeKeeps(s: State, step: ResumeStep)
    requires OwnInv(s.epoch, s.own) && ResumeEnabled(s, step)
    ensures OwnInv(s.epoch, ResumeOwnership(s, step))
  {
    if step.DoAdmitResume? {
      AdmitKeeps(s.epoch, s.own, step.resume);
    } else {
      assert ResumeEntry(s.epoch, s.own, RequestOf(step));
      hide GoodMove;
      TicketMoves(s, step);
      MoveKeeps(s.epoch, s.own, ResumeOwnership(s, step), RequestOf(step));
    }
  }
}
