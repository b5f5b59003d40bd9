/** Exactly when requests are admitted, notices due and the daemon clean. */
module Admissions {
  import opened Options
  import opened RuntimeState
  import opened LaunchSteps
  import opened ResumeSteps
  import opened ControlSteps
  import opened ShutdownSteps
  import opened LifecycleSteps
  import opened RuntimeMachine
  import opened OwnershipInvariants
  import opened ControlInvariants
  import opened LifecycleInvariants
  import opened RuntimeProofs
  import opened Receipts
  import opened Deferrals
  import opened Counting
  import Finality
  import O = OwnershipOutcomes
  import L = LifecycleProofs
  import Pages = RunPages
  import SD = ShutdownProofs

  /** Executions may be admitted: no flag is up, and there is room for one more. */
  predicate HasRoom(s: State)
  {
    !s.gate.disabled && !s.life.preparing && !s.life.committed && !s.life.starting
    && s.own.pending + s.own.active < MAX_ACTIVE_RUNS && |s.own.index| + |s.own.resumes| < MAX_LAUNCH_REQUESTS
  }

  /** A launch request of this epoch joins the ticket of an equal request, conflicts
      with a different one, and otherwise is admitted exactly when there is room and
      the revision can still move. */
  lemma {:induction false} LaunchAdmittedExactly(s: State, request: LaunchRequest)
    requires Indexed(s.own)
    ensures AdmitLaunchReply(s, request) == Admit
            <==> request.epoch == s.epoch && request.id !in s.own.index && HasRoom(s) && !s.gate.exhausted && s.gate.revision != MAX_REVISION
    ensures forall ref :: (AdmitLaunchReply(s, request) == LaunchAdmission.Join(ref)
                           <==> request.epoch == s.epoch && request.id in s.own.index && s.own.index[request.id] == ref
                                && s.own.launches[ref].request == request)
    ensures AdmitLaunchReply(s, request) == Refuse(ErrChanged)
            <==> request.epoch != s.epoch || (request.id in s.own.index && s.own.launches[s.own.index[request.id]].request != request)
  {
  }

  /** Resume requests alike; they do not look at the revision. */
  lemma {:induction false} ResumeAdmittedExactly(s: State, request: ResumeRequest)
    ensures AdmitResumeReply(s, request) == AdmitNew
            <==> request.epoch == s.epoch && request.id !in s.own.resumes && HasRoom(s)
    ensures AdmitResumeReply(s, request) == JoinExisting
            <==> request.epoch == s.epoch && request.id in s.own.resumes && s.own.resumes[request.id].request == request
    ensures AdmitResumeReply(s, request) == RefuseResume(ErrChanged)
            <==> request.epoch != s.epoch || (request.id in s.own.resumes && s.own.resumes[request.id].request != request)
  {
  }

  /** A new control is admitted exactly on a live run that is not busy, below the bound
      on coordinators, with no decision in preparation; after a decision or doubt only
      a stop, and input only to a published run. */
  lemma {:induction false} ControlAdmittedExactly(s: State, run: RunId, intent: Intent, fingerprint: nat)
    requires AllRetained(s.ctl)
    ensures AdmitControlReply(s, run, intent, fingerprint) == AdmitOne
            <==> LiveRun(s.own, run) && !(run in s.ctl.ledgers && intent.id in s.ctl.ledgers[run].tickets)
                 && !s.gate.exhausted && s.gate.revision != MAX_REVISION && !s.life.preparing
                 && (s.life.committed || s.life.uncertain ==> intent.kind == Stop)
                 && (intent.kind == Input ==> s.own.runs[run].published)
                 && s.ctl.pending < MAX_CONTROL_COORDINATORS && !(run in s.ctl.ledgers && s.ctl.ledgers[run].busy)
    ensures forall ref :: (AdmitControlReply(s, run, intent, fingerprint) == Inspect(ref)
                           <==> run in s.own.runs && run in s.ctl.ledgers && intent.id in s.ctl.ledgers[run].tickets
                                && s.ctl.ledgers[run].tickets[intent.id] == ref && ref in s.ctl.tickets
                                && s.ctl.tickets[ref].intent == intent && s.ctl.tickets[ref].fingerprint == fingerprint)
  {
    if run in s.ctl.ledgers { assert Retained(s.ctl, run, intent.id); }
  }

  /** A confirmation is admitted exactly when the loss of work is acknowledged, its
      binding is the one of the stored preview and still the current one with nothing
      in motion, nothing is uncertain or already decided, every row is an owned run,
      and for a handoff also the roster is empty and the target is the deferred one. */
  lemma {:induction false} ConfirmationAdmittedExactly(s: State, b: Binding, acknowledged: bool, purpose: Purpose)
    ensures ConfirmReply(s, b, acknowledged, purpose) == AdmitConfirm
            <==> acknowledged && b.preview !in s.life.shutdowns && |s.life.shutdowns| < MAX_LAUNCH_REQUESTS
                 && s.life.preview.Some? && s.life.preview.value.binding == b
                 && BindingInRange(b) && b == BindingOf(s, b.preview)
                 && b.pendingLaunches == 0 && b.pendingControls == 0 && b.pendingReconciliations == 0
                 && !s.gate.exhausted && s.gate.revision != MAX_REVISION
                 && !s.life.preparing && !s.life.committed && !s.life.starting && s.life.pending <= 0 && !HasUncertain(s)
                 && (forall x :: x in s.life.preview.value.runs ==> x.run in s.own.runs)
                 && (purpose.Update? ==>
                       b.rows == {} && b.totalRuns == 0 && s.life.bound && !s.gate.disabled
                       && (s.life.deferral.Some? ==> s.life.deferral.value.target == purpose.target))
    ensures !acknowledged ==> ConfirmReply(s, b, acknowledged, purpose) == RefuseConfirm(ErrInvalid)
  {
    hide BindingOf, HasUncertain;
  }

  /** An update attempt in a bound daemon whose metadata may change is offered an empty
      preview exactly when nothing is deferred and the daemon is quiescent, and defers
      otherwise; it is refused for its reasons in their order. */
  lemma {:induction false} AttemptAnsweredExactly(s: State)
    ensures AttemptReply(s) == EmptyPreview <==> s.life.bound && s.life.deferral.None? && Quiescent(s)
    ensures AttemptReply(s) == AdmitAttempt
            <==> s.life.bound && !s.gate.exhausted && s.gate.revision != MAX_REVISION && !s.gate.disabled
                 && !s.life.starting && s.life.pending == 0 && !s.life.preparing && !s.life.committed && !s.life.uncertain
                 && (s.life.deferral.Some? || !Quiescent(s))
    ensures AttemptReply(s) == RefuseAttempt(ErrUnsupported) <==> !s.life.bound
    ensures AttemptReply(s) == RefuseAttempt(ErrLimit) <==> s.life.bound && (s.gate.exhausted || s.gate.revision == MAX_REVISION)
  {
    hide BindingOf;
  }

  // ---- Notices ----------------------------------------------------------------------

  /** A notice is published exactly when a bound, idle daemon has a deferral that began
      at least a day ago and was not announced; and then it is announced. */
  lemma {:induction false} NoticeIsDue(s: State, now: int)
    ensures NoticeReply(s, now) == AdmitNotice
            <==> s.life.bound && s.life.deferral.Some? && !s.life.deferral.value.notified
                 && now - s.life.deferral.value.started >= 24 * 60 * 60 * 1_000_000_000
                 && !s.gate.exhausted && s.gate.revision != MAX_REVISION && !s.gate.disabled
                 && !s.life.starting && s.life.pending == 0 && !s.life.preparing && !s.life.committed && !s.life.uncertain
    ensures NoticeReply(s, now) == AdmitNotice ==>
              s.life.deferral.value.Notice(now) == Deferral(s.life.deferral.value.target, s.life.deferral.value.started, true)
  {
  }

  /** Once announced, a deferral is never announced again, however long it goes on. */
  lemma {:induction false} NoticeIsOnce(s: State, steps: seq<Step>, now: int)
    requires Inv(s) && Legal(s, steps) && NoCrash(steps) && s.life.deferral.Some? && s.life.deferral.value.notified
    ensures NoticeReply(After(s, steps), now) != AdmitNotice
  {
    hide Inv, Enabled, Apply, Retired;
    DeferralIsContinuous(s, steps);
    if After(s, steps).life.deferral.None? { NoNotice(After(s, steps), now); }
  }

  lemma {:induction false} NoNotice(s: State, now: int)
    requires s.life.deferral.None?
    ensures NoticeReply(s, now) != AdmitNotice
  {
  }

  // ---- Clean ------------------------------------------------------------------------

  /** Every launch that ended in doubt left a run in doubt or kept its reservation. */
  lemma {:induction false} CleanHasNoDoubt(epoch: nat, o: Ownership)
    requires LaunchEntries(epoch, o) && ResumeEntries(epoch, o) && Indexed(o) && Conserved(o) && O.Answered(o) && o.pending == 0
    requires forall r :: r in o.runs ==> CleanRun(o.runs[r])
    ensures !UncertainOwnership(o)
  {
    CountZero(o.launches, HoldsLaunch);
    forall id | id in o.index
      ensures !(o.launches[o.index[id]].result.Some? && o.launches[o.index[id]].result.value.uncertain)
    {
      var t := o.launches[o.index[id]];
      assert LaunchEntry(epoch, o, o.index[id]) && O.LaunchAnswered(t);
      if t.start.Child? && t.phase.Finished? { assert O.RunAnswered(o, t.snapshot.run) && CleanRun(o.runs[t.snapshot.run]); }
    }
  }

  /** The clean check passes exactly when nothing is left: launches are disabled, no
      reservation, child, control or coordinator remains, every run has a journaled
      exit and is certain, and no decision or save is in doubt. */
  lemma {:induction false} CleanExactly(s: State)
    requires OwnInv(s.epoch, s.own) && CtlInv(s.epoch, s.own, s.ctl) && Coordinated(s.gate, s.life) && O.Answered(s.own)
    ensures CleanReply(s).None? <==> Clean(s) && s.life.pending == 0 && !s.life.uncertain
  {
    if CleanReply(s).None? {
      hide O.Answered;
      L.PassedIsClean(s);
    }
    if Clean(s) {
      CleanHasNoDoubt(s.epoch, s.own);
    }
  }

  // ---- Doubt ------------------------------------------------------------------------

  predicate Stranded(t: LaunchTicket) { t.phase.SavingUncertain? || t.phase == Finished(true) }

  /** The daemon is in doubt exactly when a decision or a save of its metadata is, or an
      owned run is uncertain, or a launch may have left a child behind. */
  lemma {:induction false} DoubtExactly(s: State)
    requires LaunchEntries(s.epoch, s.own) && Indexed(s.own) && O.Answered(s.own) && Coordinated(s.gate, s.life)
    ensures HasUncertain(s)
            <==> s.life.uncertain || (exists r :: r in s.own.runs && s.own.runs[r].snapshot.uncertain)
                 || (exists ref :: ref in s.own.launches && Stranded(s.own.launches[ref]))
  {
    var o := s.own;
    forall ref | ref in o.launches && Stranded(o.launches[ref]) ensures UncertainOwnership(o) {
      assert LaunchEntry(s.epoch, o, ref);
      assert o.launches[o.index[o.launches[ref].request.id]] == o.launches[ref];
    }
    forall id | id in o.index && o.launches[o.index[id]].result.Some? && o.launches[o.index[id]].result.value.uncertain
      ensures Stranded(o.launches[o.index[id]]) || exists r :: r in o.runs && o.runs[r].snapshot.uncertain
    {
      DoubtfulLaunches(s.epoch, o, o.index[id]);
    }
  }

  lemma {:induction false} DoubtfulLaunches(epoch: nat, o: Ownership, ref: Ref)
    requires LaunchEntries(epoch, o) && O.Answered(o) && ref in o.launches
    requires o.launches[ref].result.Some? && o.launches[ref].result.value.uncertain
    ensures Stranded(o.launches[ref]) || (o.launches[ref].snapshot.run in o.runs && o.runs[o.launches[ref].snapshot.run].snapshot.uncertain)
  {
    var t := o.launches[ref];
    assert LaunchEntry(epoch, o, ref) && O.LaunchAnswered(t);
    if t.start.Child? && t.phase.Finished? { assert O.RunAnswered(o, t.snapshot.run); }
  }

  // ---- The second look of a decision ---------------------------------------------------

  predicate Awaiting(l: Lifecycle, p: PreviewId, reservation: nat)
  {
    p in l.shutdowns && l.shutdowns[p].phase == Revalidating(reservation)
  }

  lemma {:induction false} FinishLeaves(l: Lifecycle, p: PreviewId, outcome: ShutdownOutcome, error: Option<Failure>)
    requires p in l.shutdowns
    ensures var l' := FinishShutdown(l, p, outcome, 0, error, false); p in l'.shutdowns && l'.shutdowns[p].phase == Settled
  {
  }

  lemma {:induction false} CheckLeaves(l: Lifecycle, p: PreviewId, revision: nat, doubtful: bool)
    requires p in l.shutdowns && l.shutdowns[p].phase.Revalidating?
    ensures var l' := CheckShutdown(l, p, revision, doubtful);
            p in l'.shutdowns
            && l'.shutdowns[p].phase == if revision == l.shutdowns[p].phase.reservation && !doubtful then Checked else Refusing
  {
  }

  lemma {:induction false} CommitLeaves(epoch: nat, l: Lifecycle, p: PreviewId)
    requires p in l.shutdowns
    ensures var l' := CommitShutdown(epoch, l, p); p in l'.shutdowns && l'.shutdowns[p].phase.Closing?
  {
  }

  lemma {:induction false} CloseLeaves(l: Lifecycle, p: PreviewId, run: RunId, ok: bool)
    requires p in l.shutdowns && l.shutdowns[p].phase.Closing?
    ensures var l' := CloseTerminal(l, p, run, ok); p in l'.shutdowns && l'.shutdowns[p].phase.Closing?
    ensures var l' := SettleShutdown(l, p, ok); p in l'.shutdowns && l'.shutdowns[p].phase == Settled
  {
  }

  /** A section of a decision takes it away from its second look. */
  lemma {:induction false} SectionLeaves(s: State, step: ShutdownStep)
    requires ShutdownEnabled(s, step)
    requires !step.DoPreviewShutdown? && !step.DoCancelShutdown? && !step.DoConfirmShutdown?
    ensures step.preview in ShutdownLifecycle(s, step).shutdowns
    ensures !ShutdownLifecycle(s, step).shutdowns[step.preview].phase.Revalidating?
  {
    hide FinishShutdown, CheckShutdown, CommitShutdown, CloseTerminal, SettleShutdown, BindingOf, HasUncertain;
    match step
    case DoRefuseShutdown(p, error) => FinishLeaves(s.life, p, ShutdownRejected, Some(error));
    case DoCheckShutdown(p) => CheckLeaves(s.life, p, s.gate.revision, HasUncertain(s));
    case DoDoubtShutdown(p) => FinishLeaves(s.life, p, ShutdownUnknown, Some(ErrUnknown));
    case DoCommitShutdown(p) => CommitLeaves(s.epoch, s.life, p);
    case DoCloseTerminal(p, run, ok) => CloseLeaves(s.life, p, run, ok);
    case DoSettleShutdown(p, saved) => CloseLeaves(s.life, p, 0, saved);
  }

  lemma {:induction false} ShutdownReserves(s: State, step: ShutdownStep, p: PreviewId, reservation: nat)
    requires Shapes(s.life) && Coordinated(s.gate, s.life) && ShutdownEnabled(s, step) && p in s.life.shutdowns
    ensures p in ShutdownLifecycle(s, step).shutdowns
    ensures Awaiting(ShutdownLifecycle(s, step), p, reservation) ==> Awaiting(s.life, p, reservation)
  {
    hide BindingOf, HasUncertain, Shapes, Coordinated;
    if step.DoPreviewShutdown? || step.DoCancelShutdown? || step.DoConfirmShutdown? {
      hide FinishShutdown, CheckShutdown, CommitShutdown, CloseTerminal, SettleShutdown;
    } else {
      hide ShutdownLifecycle, ShutdownEnabled;
      SectionLeaves(s, step);
      SD.SectionMoves(s, step);
    }
  }

  lemma {:induction false} ReservationStep(s: State, step: Step, p: PreviewId, reservation: nat)
    requires Shapes(s.life) && Coordinated(s.gate, s.life) && Enabled(s, step) && !step.Crash? && p in s.life.shutdowns
    ensures p in Apply(s, step).life.shutdowns
    ensures Awaiting(Apply(s, step).life, p, reservation) ==> Awaiting(s.life, p, reservation)
  {
    hide LaunchEnabled, ResumeEnabled, ControlEnabled, ShutdownEnabled, LifecycleEnabled, Shapes, Coordinated;
    hide LaunchOwnership, ResumeOwnership, ControlControls, ShutdownLifecycle, LifecycleLifecycle;
    match step
    case Shutting(d) => ShutdownReserves(s, d, p, reservation);
    case Maintaining(u) => Finality.MaintenanceIsFinal(s, u);
    case _ =>
  }

  lemma {:induction false} LifeShapes(s: State)
    requires Inv(s)
    ensures Shapes(s.life) && Coordinated(s.gate, s.life)
  {
    hide OwnInv, CtlInv, Shapes, Coordinated;
  }

  lemma {:induction false} ReservationStays(s: State, steps: seq<Step>, p: PreviewId, reservation: nat)
    requires Inv(s) && Legal(s, steps) && NoCrash(steps) && p in s.life.shutdowns
    ensures p in After(s, steps).life.shutdowns
    ensures Awaiting(After(s, steps).life, p, reservation) ==> Awaiting(s.life, p, reservation)
    decreases |steps|
  {
    hide Inv, Enabled, Apply, Awaiting, Shapes, Coordinated;
    if steps != [] {
      LifeShapes(s);
      ReservationStep(s, steps[0], p, reservation);
      StepKeeps(s, steps[0]);
      ReservationStays(Apply(s, steps[0]), steps[1..], p, reservation);
    }
  }

  /** A decision that is looked at again, whatever the daemon did meanwhile, passes
      exactly when the revision is still the one right after its confirmation and
      nothing is in doubt; the roster then has the identities it was confirmed for. */
  lemma {:induction false} SecondLookIsExact(s: State, p: PreviewId, steps: seq<Step>)
    requires Inv(s) && Awaiting(s.life, p, s.gate.revision) && Legal(s, steps) && NoCrash(steps)
    requires ShutdownEnabled(After(s, steps), DoCheckShutdown(p))
    ensures var s' := After(s, steps);
            p in ShutdownLifecycle(s', DoCheckShutdown(p)).shutdowns
            && ShutdownLifecycle(s', DoCheckShutdown(p)).shutdowns[p].phase
               == (if s'.gate.revision == s.gate.revision && !HasUncertain(s') then Checked else Refusing)
            && (s'.gate.revision == s.gate.revision < MAX_REVISION ==> Ids(Roster(s'.own)) == Ids(Roster(s.own)))
  {
    var s' := After(s, steps);
    CheckedPhase(s', p);
    var reservation := s'.life.shutdowns[p].phase.reservation;
    hide Inv, Enabled, Apply, Legal, After, HasUncertain, Roster, ShutdownEnabled, ShutdownLifecycle;
    ReservationStays(s, steps, p, reservation);
    if s'.gate.revision == s.gate.revision < MAX_REVISION { Pages.SameRevisionSameIds(s, steps); }
  }

  lemma {:induction false} CheckedPhase(s: State, p: PreviewId)
    requires ShutdownEnabled(s, DoCheckShutdown(p))
    ensures p in s.life.shutdowns && s.life.shutdowns[p].phase.Revalidating?
    ensures var l' := ShutdownLifecycle(s, DoCheckShutdown(p));
            p in l'.shutdowns
            && l'.shutdowns[p].phase == if s.gate.revision == s.life.shutdowns[p].phase.reservation && !HasUncertain(s) then Checked else Refusing
  {
    hide HasUncertain;
  }

  /** What a confirmation reserves is the revision right after its own change. */
  lemma {:induction false} ConfirmedAwaits(s: State, b: Binding, purpose: Purpose)
    requires ShutdownEnabled(s, DoConfirmShutdown(b, purpose))
    ensures var s1 := ShutdownApply(s, DoConfirmShutdown(b, purpose));
            s1.own == s.own && b.preview in s1.life.shutdowns && Awaiting(s1.life, b.preview, s1.gate.revision)
  {
    hide BindingOf, HasUncertain;
  }
}