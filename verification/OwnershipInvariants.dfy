/** What every reachable ownership state satisfies. */
module OwnershipInvariants {
  import opened Options
  import opened RuntimeState
  import opened LaunchSteps
  import opened ResumeSteps
  import opened Counting

  // ---- Accounting ---------------------------------------------------------

  /** An untransferred launch that is running or may hide a child. */
  predicate HoldsLaunch(t: LaunchTicket)
  {
    match t.phase
    case Publishing => false
    case Finished(stranded) => stranded
    case _ => true
  }

  /** An untransferred resume that is running or may hide a child. */
  predicate HoldsResume(t: ResumeTicket) { !t.attached && (!t.complete || t.possibleChild) }

  /** An owned run without a known and reconciled exit. */
  predicate HoldsRun(r: OwnedRun) { r.phase != Reconciled(true) }

  function RunHold(runs: map<RunId, OwnedRun>, r: RunId): nat { One(r in runs && HoldsRun(runs[r])) }

  ghost predicate Conserved(o: Ownership)
  {
    o.pending == Count(o.launches, HoldsLaunch) + Count(o.resumes, HoldsResume)
    && o.active == Count(o.runs, HoldsRun)
  }

  predicate Bounded(o: Ownership)
  {
    o.pending + o.active <= MAX_ACTIVE_RUNS && |o.index| + |o.resumes| <= MAX_LAUNCH_REQUESTS
  }

  // ---- Launch tickets -----------------------------------------------------

  /** How the fields of one ticket agree with where its goroutine stands. */
  predicate LaunchShape(t: LaunchTicket)
  {
    && (t.complete <==> t.phase.Finished?)
    && (t.aborted <==> t.abandoned && t.complete)
    && (t.abandoned ==> !t.starting)
    && (t.start.Child? ==> !t.start.withError)
    && (!t.starting ==> t.start.NotCalled? && t.result.None? && (t.phase.Preparing? || t.phase == Finished(false)))
    && match t.phase
       case Preparing => !t.starting
       case Reserving => t.starting && t.start.NotCalled? && FreshDescriptor(t)
       case Returned => t.starting && !t.start.NotCalled? && FreshDescriptor(t)
       case Publishing => t.starting && t.start.Child? && t.result.None?
                          && t.snapshot == RunSnapshot(t.snapshot.run, Reserved, false).Started(t.start.pid)
       case SavingUncertain => DoubtfulLaunch(t)
       case Finished(stranded) =>
         if stranded then DoubtfulLaunch(t)
         else !t.start.PossibleChild()
              && (t.starting && !t.start.Child? ==> t.result == Some(t.snapshot) && !t.snapshot.uncertain)
              && (t.start.Child? ==> t.starting && t.result.Some? && t.result.value.run == t.snapshot.run)
  }

  predicate FreshDescriptor(t: LaunchTicket)
  {
    t.snapshot == RunSnapshot(t.snapshot.run, Reserved, false) && t.result.None?
  }

  predicate DoubtfulLaunch(t: LaunchTicket)
  {
    t.starting && (t.start.NotCalled? || t.start.PossibleChild())
    && t.snapshot.uncertain && t.result == Some(t.snapshot) && t.error == Some(ErrUnknown)
  }

  /** A run exists exactly from the transfer of its child on, and its launch
      publishes it before its exit is awaited. */
  predicate LaunchTransfer(t: LaunchTicket, runs: map<RunId, OwnedRun>)
  {
    var r := t.snapshot.run;
    if t.phase.Publishing? then r in runs && runs[r].phase == Unpublished && runs[r].snapshot == t.snapshot
    else if t.phase.Finished? && t.start.Child? then r in runs && runs[r].phase != Unpublished
    else r !in runs
  }

  predicate LaunchEntry(epoch: nat, o: Ownership, ref: Ref)
    requires ref in o.launches
  {
    var t := o.launches[ref];
    LaunchShape(t)
    && (t.aborted || (t.request.id in o.index && o.index[t.request.id] == ref))
    && (t.starting ==> t.snapshot.run in o.drawn && o.drawn[t.snapshot.run] == ByLaunch(epoch, ref)
                       && LaunchTransfer(t, o.runs))
  }

  ghost predicate LaunchEntries(epoch: nat, o: Ownership)
  {
    forall ref :: ref in o.launches ==> LaunchEntry(epoch, o, ref)
  }

  ghost predicate Indexed(o: Ownership)
  {
    forall id :: id in o.index ==>
      o.index[id] in o.launches && o.launches[o.index[id]].request.id == id && !o.launches[o.index[id]].aborted
  }

  /** Start was called once for the requests whose ticket says so, and for no other. */
  ghost predicate StartsCounted(epoch: nat, o: Ownership)
  {
    && (forall e: nat, id :: o.starts[(e, id)] <= 1 && (e > epoch ==> o.starts[(e, id)] == 0))
    && (forall id :: o.starts[(epoch, id)] == 1 <==>
          id in o.index && o.index[id] in o.launches && !o.launches[o.index[id]].start.NotCalled?)
  }

  // ---- Resume tickets -----------------------------------------------------

  predicate ResumeShape(t: ResumeTicket)
  {
    && (t.complete <==> t.phase.ResumeFinished?)
    && (t.cancelled ==> !t.starting)
    && (t.possibleChild <==> t.complete && t.start.PossibleChild())
    && (t.attached ==> t.starting && t.start.Child?)
    && (!t.start.NotCalled? ==> t.starting)
    && (t.starting && !t.attached ==> t.snapshot == RunSnapshot(t.snapshot.run, Reserved, false))
    && match t.phase
       case ResumePreparing => !t.starting && !t.attached && t.start.NotCalled?
       case ResumeReserving => t.starting && !t.attached && t.start.NotCalled?
       case ResumeReserved => t.starting && !t.attached && t.start.NotCalled?
       case ResumeReturned => t.starting && !t.attached && !t.start.NotCalled?
       case ResumeSettling => t.attached && t.result.owned
                              && t.snapshot == RunSnapshot(t.snapshot.run, Reserved, false).Started(t.start.pid)
       case ResumeCompleting(confirmed) => t.attached && (confirmed ==> CleanStart(t))
       case ResumeFinished =>
         (t.start.Child? ==> t.attached) && (t.result.owned <==> t.attached)
         && (t.attached && t.error.None? ==> t.result.phase == Some(AttemptConfirmed) && CleanStart(t))
  }

  predicate Confirmed(t: ResumeTicket)
  {
    t.attached && (t.phase == ResumeCompleting(true) || (t.phase.ResumeFinished? && t.error.None?))
  }

  /** The durable attempt made by this epoch is the licence for a native resume,
      and its durable confirmation the licence for publishing the run. */
  predicate ResumeEntry(epoch: nat, o: Ownership, id: RequestId)
    requires id in o.resumes
  {
    var t := o.resumes[id];
    ResumeShape(t) && t.request.id == id
    && (t.starting ==> t.snapshot.run in o.drawn && o.drawn[t.snapshot.run] == ByResume(epoch, id))
    && (t.phase.ResumeReserved? || !t.start.NotCalled? ==> id in o.attempts && o.attempts[id].creator == epoch)
    && o.resumed[id] == (if t.start.NotCalled? then o.resumed[id] else 1)
    && (t.phase.ResumeReserved? ==> o.resumed[id] == 0)
    && (t.starting ==>
          if t.attached then t.snapshot.run in o.runs && (t.phase.ResumeFinished? <==> o.runs[t.snapshot.run].phase != Unpublished)
          else t.snapshot.run !in o.runs)
    && (t.phase.ResumeSettling? && t.snapshot.run in o.runs ==> o.runs[t.snapshot.run].snapshot == t.snapshot)
    && (t.attached && t.snapshot.run in o.runs && o.runs[t.snapshot.run].published ==> Confirmed(t))
    && (Confirmed(t) ==> id in o.attempts && o.attempts[id].phase == AttemptConfirmed)
  }

  ghost predicate ResumeEntries(epoch: nat, o: Ownership)
  {
    forall id :: id in o.resumes ==> ResumeEntry(epoch, o, id)
  }

  ghost predicate AttemptsCounted(epoch: nat, o: Ownership)
  {
    && (forall id :: id in o.attempts ==> o.attempts[id].creator <= epoch)
    && (forall id :: o.resumed[id] <= 1 && (o.resumed[id] > 0 ==> id in o.attempts))
    && (forall id :: id in o.attempts && o.attempts[id].creator == epoch && o.resumed[id] > 0 ==>
          id in o.resumes && !o.resumes[id].start.NotCalled?)
  }

  // ---- Owned runs ---------------------------------------------------------

  predicate RunShape(r: OwnedRun)
  {
    && (r.snapshot.state == Reserved ==> r.snapshot.uncertain)
    && (r.snapshot.uncertain ==> !r.published)
    && (r.exitSaved ==> r.phase == Reconciled(true))
    && match r.phase
       case Unpublished => r.snapshot.state != Exited
       case Waiting => r.snapshot.state != Exited
       case SavingExit(known) => (known <==> r.snapshot.state == Exited) && (!known ==> r.snapshot.uncertain && r.waitFailed)
       case Reconciled(known) => (known <==> r.snapshot.state == Exited) && (!known ==> r.snapshot.uncertain && r.waitFailed)
                                 && (known ==> r.exitSaved || r.snapshot.uncertain)
  }

  ghost predicate RunEntries(o: Ownership)
  {
    forall r :: r in o.runs ==> r in o.drawn && o.runs[r].snapshot.run == r && RunShape(o.runs[r])
  }

  /** Identities are drawn by epochs up to this one; an owned run by this one. */
  ghost predicate Drawn(epoch: nat, o: Ownership)
  {
    (forall r :: r in o.drawn ==> o.drawn[r].epoch <= epoch)
    && (forall r :: r in o.runs && r in o.drawn ==> o.drawn[r].epoch == epoch)
  }

  ghost predicate OwnInv(epoch: nat, o: Ownership)
  {
    Conserved(o) && Bounded(o) && LaunchEntries(epoch, o) && Indexed(o) && StartsCounted(epoch, o)
    && ResumeEntries(epoch, o) && AttemptsCounted(epoch, o) && RunEntries(o) && Drawn(epoch, o)
  }
}
