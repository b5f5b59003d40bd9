/** Launch and reconciliation steps keep the ownership invariant. */
module LaunchProofs {
  import opened RuntimeState
  import opened LaunchSteps
  import opened ResumeSteps
  import opened OwnershipInvariants
  import opened Counting

  /** What every launch step does beyond its own ticket: it may unindex that
      ticket, draw its identity, count its start, and write its run. */
  ghost predicate LaunchMove(epoch: nat, o: Ownership, o': Ownership, ref: Ref)
  {
    ref in o.launches && ref in o'.launches
    && var t, t' := o.launches[ref], o'.launches[ref];
    o'.launches == o.launches[ref := t'] && t'.request == t.request
    && o'.resumes == o.resumes && o'.attempts == o.attempts && o'.resumed == o.resumed
    && (t.aborted ==> t'.aborted)
    && o'.index == (if t'.aborted && !t.aborted then o.index - {t.request.id} else o.index)
    && (t.starting ==> t'.starting && t'.snapshot.run == t.snapshot.run)
    && (o'.drawn == o.drawn || (!t.starting && t'.snapshot.run !in o.drawn && o'.drawn == o.drawn[t'.snapshot.run := ByLaunch(epoch, ref)]))
    && (o'.runs == o.runs || (t.starting && t.snapshot.run in o'.runs && o'.runs == o.runs[t.snapshot.run := o'.runs[t.snapshot.run]]))
    && (if t.start.NotCalled? && !t'.start.NotCalled? then o'.starts == o.starts + multiset{(epoch, t.request.id)}
        else o'.starts == o.starts && (t.start.NotCalled? <==> t'.start.NotCalled?))
  }

  lemma {:induction false} MoveKeepsLaunches(epoch: nat, o: Ownership, o': Ownership, ref: Ref)
    requires LaunchEntries(epoch, o) && LaunchMove(epoch, o, o', ref) && LaunchEntry(epoch, o', ref)
    ensures LaunchEntries(epoch, o')
  {
    forall q | q in o'.launches && q != ref ensures LaunchEntry(epoch, o', q) {
      assert LaunchEntry(epoch, o, q) && LaunchEntry(epoch, o, ref);
    }
  }

  lemma {:induction false} MoveKeepsIndexed(epoch: nat, o: Ownership, o': Ownership, ref: Ref)
    requires LaunchMove(epoch, o, o', ref) && LaunchEntry(epoch, o, ref) && Indexed(o)
    ensures Indexed(o')
  {
  }

  lemma {:induction false} MoveKeepsStarts(epoch: nat, o: Ownership, o': Ownership, ref: Ref)
    requires ref in o'.launches && LaunchMove(epoch, o, o', ref)
    requires LaunchEntry(epoch, o, ref) && LaunchEntry(epoch, o', ref) && Indexed(o) && StartsCounted(epoch, o)
    ensures StartsCounted(epoch, o')
  {
    forall id
      ensures o'.starts[(epoch, id)] == 1 <==>
              id in o'.index && o'.index[id] in o'.launches && !o'.launches[o'.index[id]].start.NotCalled?
    {
      assert o.starts[(epoch, id)] == 1 <==>
             id in o.index && o.index[id] in o.launches && !o.launches[o.index[id]].start.NotCalled?;
    }
  }

  lemma {:induction false} MoveKeepsResumes(epoch: nat, o: Ownership, o': Ownership, ref: Ref)
    requires LaunchMove(epoch, o, o', ref) && LaunchEntry(epoch, o, ref) && ResumeEntries(epoch, o) && RunEntries(o)
    ensures ResumeEntries(epoch, o')
  {
    forall id | id in o'.resumes ensures ResumeEntry(epoch, o', id) {
      assert ResumeEntry(epoch, o, id);
    }
  }

  lemma {:induction false} MoveKeepsRuns(epoch: nat, o: Ownership, o': Ownership, ref: Ref)
    requires LaunchMove(epoch, o, o', ref) && LaunchEntry(epoch, o, ref) && RunEntries(o)
    requires var r := o.launches[ref].snapshot.run; o'.runs != o.runs ==> o'.runs[r].snapshot.run == r && RunShape(o'.runs[r])
    ensures RunEntries(o')
  {
  }

  lemma {:induction false} MoveKeepsDrawn(epoch: nat, o: Ownership, o': Ownership, ref: Ref)
    requires LaunchMove(epoch, o, o', ref) && LaunchEntry(epoch, o, ref) && Drawn(epoch, o)
    ensures Drawn(epoch, o')
  {
  }

  /** The counters follow the ticket and its run. */
  ghost predicate Accounted(o: Ownership, o': Ownership, ref: Ref)
    requires ref in o.launches && ref in o'.launches
  {
    var r := o.launches[ref].snapshot.run;
    o'.pending == o.pending - One(HoldsLaunch(o.launches[ref])) + One(HoldsLaunch(o'.launches[ref]))
    && o'.active == o.active - (if o'.runs == o.runs then 0 else RunHold(o.runs, r) - RunHold(o'.runs, r))
    && o'.pending + o'.active <= o.pending + o.active
  }

  lemma {:induction false} MoveConserves(epoch: nat, o: Ownership, o': Ownership, ref: Ref)
    requires LaunchMove(epoch, o, o', ref) && Accounted(o, o', ref) && Conserved(o) && Bounded(o)
    ensures Conserved(o') && Bounded(o')
  {
    var r := o.launches[ref].snapshot.run;
    CountUpdate(o.launches, HoldsLaunch, ref, o'.launches[ref]);
    if o'.runs != o.runs { CountUpdate(o.runs, HoldsRun, r, o'.runs[r]); }
    if o'.index != o.index { Subset(o'.index.Keys, o.index.Keys); }
  }

  /** A launch step in order: its own ticket and run, and the counters. */
  ghost predicate GoodMove(epoch: nat, o: Ownership, o': Ownership, ref: Ref)
  {
    LaunchMove(epoch, o, o', ref) && LaunchEntry(epoch, o', ref) && Accounted(o, o', ref)
    && var r := o.launches[ref].snapshot.run; o'.runs != o.runs ==> o'.runs[r].snapshot.run == r && RunShape(o'.runs[r])
  }

  lemma {:induction false} MoveKeeps(epoch: nat, o: Ownership, o': Ownership, ref: Ref)
    requires OwnInv(epoch, o) && GoodMove(epoch, o, o', ref)
    ensures OwnInv(epoch, o')
  {
    MoveConserves(epoch, o, o', ref);
    MoveKeepsLaunches(epoch, o, o', ref);
    MoveKeepsIndexed(epoch, o, o', ref);
    MoveKeepsStarts(epoch, o, o', ref);
    MoveKeepsResumes(epoch, o, o', ref);
    MoveKeepsRuns(epoch, o, o', ref);
    MoveKeepsDrawn(epoch, o, o', ref);
  }

  lemma {:induction false} JoinMoves(epoch: nat, o: Ownership, ref: Ref)
    requires ref in o.launches && LaunchEntry(epoch, o, ref)
    ensures GoodMove(epoch, o, JoinLaunch(o, ref), ref)
  {
  }

  lemma {:induction false} LeaveMoves(epoch: nat, o: Ownership, ref: Ref)
    requires ref in o.launches && LaunchEntry(epoch, o, ref) && o.launches[ref].waiters > 0
    ensures GoodMove(epoch, o, LeaveLaunch(o, ref), ref)
  {
  }

  lemma {:induction false} CommitMoves(epoch: nat, o: Ownership, ref: Ref, run: RunId)
    requires LaunchIn(o, ref, Preparing) && LaunchEntry(epoch, o, ref) && RunEntries(o)
    requires !o.launches[ref].abandoned && run !in o.drawn
    ensures GoodMove(epoch, o, CommitLaunch(epoch, o, ref, run), ref)
  {
  }

  lemma {:induction false} CallMoves(epoch: nat, o: Ownership, ref: Ref, outcome: StartOutcome)
    requires LaunchIn(o, ref, Reserving) && LaunchEntry(epoch, o, ref)
    requires !outcome.NotCalled? && (outcome.Child? ==> !outcome.withError)
    ensures GoodMove(epoch, o, CallStart(epoch, o, ref, outcome), ref)
  {
  }

  lemma {:induction false} TransferMoves(epoch: nat, o: Ownership, ref: Ref)
    requires LaunchIn(o, ref, Returned) && LaunchEntry(epoch, o, ref) && o.launches[ref].start.Child?
    ensures GoodMove(epoch, o, TransferLaunch(o, ref), ref)
  {
  }

  lemma {:induction false} PublishMoves(epoch: nat, o: Ownership, ref: Ref, saved: bool)
    requires LaunchIn(o, ref, Publishing) && LaunchEntry(epoch, o, ref) && o.launches[ref].start.Child?
    requires o.launches[ref].snapshot.run in o.runs && RunEntries(o)
    ensures GoodMove(epoch, o, PublishLaunch(o, ref, saved), ref)
  {
    var o', r := PublishLaunch(o, ref, saved), o.launches[ref].snapshot.run;
    assert o.runs[r].phase == Unpublished && o'.runs[r].phase == Waiting;
  }

  lemma {:induction false} FailMoves(epoch: nat, o: Ownership, ref: Ref, unknown: bool)
    requires ref in o.launches && LaunchEntry(epoch, o, ref) && MayFail(o.launches[ref], unknown)
    ensures GoodMove(epoch, o, FailLaunch(o, ref, unknown), ref)
  {
    if o.launches[ref].starting && unknown {
    } else {
    }
  }

  lemma {:induction false} ConcludeMoves(epoch: nat, o: Ownership, ref: Ref)
    requires LaunchIn(o, ref, SavingUncertain) && LaunchEntry(epoch, o, ref)
    ensures GoodMove(epoch, o, FinishUncertainLaunch(o, ref), ref)
  {
  }

  // ---- Admission ----------------------------------------------------------

  lemma {:induction false} AdmitKeeps(epoch: nat, o: Ownership, request: LaunchRequest, ref: Ref)
    requires OwnInv(epoch, o) && ref !in o.launches && request.id !in o.index && !Full(o)
    ensures OwnInv(epoch, AdmitLaunch(o, request, ref))
  {
    AdmitConserves(o, request, ref);
    AdmitKeepsLaunches(epoch, o, request, ref);
    AdmitKeepsStarts(epoch, o, request, ref);
    AdmitKeepsResumes(epoch, o, request, ref);
  }

  lemma {:induction false} AdmitConserves(o: Ownership, request: LaunchRequest, ref: Ref)
    requires Conserved(o) && ref !in o.launches && request.id !in o.index && !Full(o)
    ensures Conserved(AdmitLaunch(o, request, ref)) && Bounded(AdmitLaunch(o, request, ref))
  {
    var o' := AdmitLaunch(o, request, ref);
    CountUpdate(o.launches, HoldsLaunch, ref, o'.launches[ref]);
    OneMore(o.index, request.id, ref);
  }

  lemma {:induction false} AdmitKeepsLaunches(epoch: nat, o: Ownership, request: LaunchRequest, ref: Ref)
    requires LaunchEntries(epoch, o) && Indexed(o) && ref !in o.launches && request.id !in o.index
    ensures var o' := AdmitLaunch(o, request, ref); LaunchEntries(epoch, o') && Indexed(o')
  {
    var o' := AdmitLaunch(o, request, ref);
    forall q | q in o'.launches && q != ref ensures LaunchEntry(epoch, o', q) { assert LaunchEntry(epoch, o, q); }
  }

  lemma {:induction false} AdmitKeepsStarts(epoch: nat, o: Ownership, request: LaunchRequest, ref: Ref)
    requires Indexed(o) && StartsCounted(epoch, o) && ref !in o.launches && request.id !in o.index
    ensures StartsCounted(epoch, AdmitLaunch(o, request, ref))
  {
    var o' := AdmitLaunch(o, request, ref);
    forall id
      ensures o'.starts[(epoch, id)] == 1 <==>
              id in o'.index && o'.index[id] in o'.launches && !o'.launches[o'.index[id]].start.NotCalled?
    {
      assert o.starts[(epoch, id)] == 1 <==>
             id in o.index && o.index[id] in o.launches && !o.launches[o.index[id]].start.NotCalled?;
    }
  }

  lemma {:induction false} AdmitKeepsResumes(epoch: nat, o: Ownership, request: LaunchRequest, ref: Ref)
    requires ResumeEntries(epoch, o)
    ensures ResumeEntries(epoch, AdmitLaunch(o, request, ref))
  {
    var o' := AdmitLaunch(o, request, ref);
    forall id | id in o'.resumes ensures ResumeEntry(epoch, o', id) { assert ResumeEntry(epoch, o, id); }
  }

  // ---- Reconciliation -----------------------------------------------------

  /** A run past publication moves on by itself. */
  ghost predicate RunMove(o: Ownership, o': Ownership, r: RunId)
  {
    r in o.runs && r in o'.runs && o' == o.(runs := o.runs[r := o'.runs[r]], active := o'.active)
    && o.runs[r].phase != Unpublished && o'.runs[r].phase != Unpublished
    && o'.runs[r].snapshot.run == o.runs[r].snapshot.run && (o'.runs[r].published ==> o.runs[r].published)
    && RunShape(o'.runs[r])
    && o'.active == o.active - One(HoldsRun(o.runs[r])) + One(HoldsRun(o'.runs[r])) <= o.active
  }

  lemma {:induction false} RunMoveKeeps(epoch: nat, o: Ownership, o': Ownership, r: RunId)
    requires OwnInv(epoch, o) && RunMove(o, o', r)
    ensures OwnInv(epoch, o')
  {
    CountUpdate(o.runs, HoldsRun, r, o'.runs[r]);
    RunMoveKeepsTickets(epoch, o, o', r);
  }

  lemma {:induction false} RunMoveKeepsTickets(epoch: nat, o: Ownership, o': Ownership, r: RunId)
    requires LaunchEntries(epoch, o) && ResumeEntries(epoch, o) && RunMove(o, o', r)
    ensures LaunchEntries(epoch, o') && ResumeEntries(epoch, o')
  {
    forall ref | ref in o'.launches ensures LaunchEntry(epoch, o', ref) { assert LaunchEntry(epoch, o, ref); }
    forall id | id in o'.resumes ensures ResumeEntry(epoch, o', id) { assert ResumeEntry(epoch, o, id); }
  }

  lemma {:induction false} ObserveMoves(o: Ownership, r: RunId, waited: bool)
    requires r in o.runs && o.runs[r].phase == Waiting && RunShape(o.runs[r])
    ensures RunMove(o, ObserveWait(o, r, waited), r)
  {
  }

  lemma {:induction false} ReconcileMoves(o: Ownership, r: RunId, saved: bool)
    requires r in o.runs && o.runs[r].phase.SavingExit? && RunShape(o.runs[r])
    ensures RunMove(o, FinishReconcile(o, r, saved), r)
  {
  }

  predicate TicketStep(step: LaunchStep) { !step.DoAdmitLaunch? && !step.DoObserveWait? && !step.DoFinishReconcile? }

  lemma {:induction false} TicketMoves(s: State, step: LaunchStep)
    requires RunEntries(s.own) && LaunchEnabled(s, step) && TicketStep(step)
    requires step.ref in s.own.launches && LaunchEntry(s.epoch, s.own, step.ref)
    ensures GoodMove(s.epoch, s.own, LaunchOwnership(s, step), step.ref)
  {
    hide GoodMove, LaunchEntry, RunEntries;
    var o, ref := s.own, step.ref;
    match step
    case DoJoinLaunch(_, _) => JoinMoves(s.epoch, o, ref);
    case DoLeaveLaunch(_) => LeaveMoves(s.epoch, o, ref);
    case DoCommitLaunch(_, run) => CommitMoves(s.epoch, o, ref, run);
    case DoCallStart(_, outcome) => CallMoves(s.epoch, o, ref, outcome);
    case DoTransferLaunch(_) => TransferMoves(s.epoch, o, ref);
    case DoPublishLaunch(_, saved) => PublishMoves(s.epoch, o, ref, saved);
    case DoFailLaunch(_, unknown) => FailMoves(s.epoch, o, ref, unknown);
    case DoFinishUncertain(_) => ConcludeMoves(s.epoch, o, ref);
    case _ =>
  }

  lemma {:induction false} TicketKeeps(s: State, step: LaunchStep)
    requires OwnInv(s.epoch, s.own) && LaunchEnabled(s, step) && TicketStep(step)
    ensures OwnInv(s.epoch, LaunchOwnership(s, step))
  {
    assert step.ref in s.own.launches;
    assert LaunchEntry(s.epoch, s.own, step.ref);
    hide GoodMove;
    TicketMoves(s, step);
    MoveKeeps(s.epoch, s.own, LaunchOwnership(s, step), step.ref);
  }

  lemma {:induction false} OwnedRuns(epoch: nat, o: Ownership)
    requires OwnInv(epoch, o)
    ensures RunEntries(o) && Indexed(o)
  {
  }

  /** Every launch and reconciliation step keeps ownership in order. */
  lemma {:induction false} LaunchKeeps(s: State, step: LaunchStep)
    requires OwnInv(s.epoch, s.own) && LaunchEnabled(s, step)
    ensures OwnInv(s.epoch, LaunchOwnership(s, step))
  {
    hide GoodMove, RunMove, OwnInv;
    OwnedRuns(s.epoch, s.own);
    var o, o' := s.own, LaunchOwnership(s, step);
    hide LaunchEntries, StartsCounted, ResumeEntries, AttemptsCounted, Drawn, LaunchApply;
    match step
    case DoAdmitLaunch(request, ref) => AdmitKeeps(s.epoch, o, request, ref);
    case DoObserveWait(r, waited) => ObserveMoves(o, r, waited); RunMoveKeeps(s.epoch, o, o', r);
    case DoFinishReconcile(r, saved) => ReconcileMoves(o, r, saved); RunMoveKeeps(s.epoch, o, o', r);
    case _ => TicketKeeps(s, step);
  }
}
