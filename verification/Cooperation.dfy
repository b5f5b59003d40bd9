/** What the daemon achieves when the ports cooperate: from any state that admits it, a
    request runs through all its lock sections to its good end. */
module Cooperation {
  import opened Options
  import opened RuntimeState
  import opened LaunchSteps
  import opened ResumeSteps
  import opened ControlSteps
  import opened ShutdownSteps
  import opened LifecycleSteps
  import opened RuntimeMachine
  import opened OwnershipInvariants
  import opened ControlInvariants
  import opened LifecycleInvariants
  import opened RuntimeProofs
  import opened Admissions

  lemma {:induction false} Chain(s: State, step: Step, rest: seq<Step>)
    requires Enabled(s, step) && Legal(Apply(s, step), rest)
    ensures Legal(s, [step] + rest) && After(s, [step] + rest) == After(Apply(s, step), rest)
  {
    hide Enabled, Apply;
    assert ([step] + rest)[1..] == rest;
  }

  // ---- Launch -------------------------------------------------------------------

  function LaunchEnd(ref: Ref, pid: int): seq<Step>
  {
    [Launching(DoCallStart(ref, Child(pid, false)))] + ([Launching(DoTransferLaunch(ref))] + ([Launching(DoPublishLaunch(ref, true))] + []))
  }

  function LaunchRun(request: LaunchRequest, ref: Ref, run: RunId, pid: int): seq<Step>
  {
    [Launching(DoAdmitLaunch(request, ref))] + ([Launching(DoCommitLaunch(ref, run))] + LaunchEnd(ref, pid))
  }

  lemma {:induction false} LaunchChain(s: State, step: LaunchStep, rest: seq<Step>)
    requires LaunchEnabled(s, step) && Legal(LaunchApply(s, step), rest)
    ensures Legal(s, [Launching(step)] + rest) && After(s, [Launching(step)] + rest) == After(LaunchApply(s, step), rest)
  {
    hide LaunchEnabled, LaunchApply;
    Chain(s, Launching(step), rest);
  }

  lemma {:induction false} Ends(s: State)
    ensures Legal(s, []) && After(s, []) == s
  {
    hide Enabled, Apply;
  }

  predicate LaunchedWell(o: Ownership, o': Ownership, request: LaunchRequest, ref: Ref, run: RunId)
  {
    ref in o'.launches && o'.launches[ref].complete && o'.launches[ref].error.None?
    && o'.launches[ref].result == Some(RunSnapshot(run, Live, false))
    && run in o'.runs && o'.runs[run].published && o'.runs[run].phase == Waiting && o'.runs[run].snapshot == RunSnapshot(run, Live, false)
    && o'.pending == o.pending && o'.active == o.active + 1
    && o'.runs == o.runs[run := o'.runs[run]] && request.id in o'.index && o'.index[request.id] == ref
  }

  /** Reserving its durable intent, with its identity drawn. */
  predicate Reserved(o: Ownership, o': Ownership, request: LaunchRequest, ref: Ref, run: RunId)
  {
    o'.pending == o.pending + 1 && o'.active == o.active && o'.runs == o.runs && run !in o.runs
    && o'.index == o.index[request.id := ref] && ref in o'.launches
    && o'.launches[ref] == LaunchTicket(request, 1, true, false, false, false, RunSnapshot(run, RunState.Reserved, false), None, None, NotCalled, None, Reserving)
  }

  lemma {:induction false} LaunchBegins(s: State, request: LaunchRequest, ref: Ref, run: RunId)
    requires ref !in s.own.launches && run !in s.own.drawn && run !in s.own.runs && AdmitLaunchReply(s, request) == Admit
    ensures LaunchEnabled(s, DoAdmitLaunch(request, ref))
    ensures var s1 := LaunchApply(s, DoAdmitLaunch(request, ref));
            LaunchEnabled(s1, DoCommitLaunch(ref, run))
            && Reserved(s.own, LaunchApply(s1, DoCommitLaunch(ref, run)).own, request, ref, run)
  {
    hide AdmissionClosed, Full;
  }

  lemma {:induction false} LaunchWorks(o: Ownership, s: State, request: LaunchRequest, ref: Ref, run: RunId, pid: int)
    requires Reserved(o, s.own, request, ref, run) && pid > 0
    ensures LaunchEnabled(s, DoCallStart(ref, Child(pid, false)))
    ensures var s1 := LaunchApply(s, DoCallStart(ref, Child(pid, false)));
            LaunchEnabled(s1, DoTransferLaunch(ref))
            && var s2 := LaunchApply(s1, DoTransferLaunch(ref));
               LaunchEnabled(s2, DoPublishLaunch(ref, true))
               && LaunchedWell(o, LaunchApply(s2, DoPublishLaunch(ref, true)).own, request, ref, run)
  {
  }

  lemma {:induction false} LaunchFinishes(o: Ownership, s: State, request: LaunchRequest, ref: Ref, run: RunId, pid: int)
    requires Reserved(o, s.own, request, ref, run) && pid > 0
    ensures Legal(s, LaunchEnd(ref, pid)) && LaunchedWell(o, After(s, LaunchEnd(ref, pid)).own, request, ref, run)
  {
    LaunchWorks(o, s, request, ref, run, pid);
    hide Enabled, Apply, Legal, After, LaunchEnabled, LaunchApply, LaunchedWell;
    var s1 := LaunchApply(s, DoCallStart(ref, Child(pid, false)));
    var s2 := LaunchApply(s1, DoTransferLaunch(ref));
    Ends(LaunchApply(s2, DoPublishLaunch(ref, true)));
    LaunchChain(s2, DoPublishLaunch(ref, true), []);
    LaunchChain(s1, DoTransferLaunch(ref), [Launching(DoPublishLaunch(ref, true))] + []);
    LaunchChain(s, DoCallStart(ref, Child(pid, false)), [Launching(DoTransferLaunch(ref))] + ([Launching(DoPublishLaunch(ref, true))] + []));
  }

  lemma {:induction false} LaunchIsAdmitted(s: State, request: LaunchRequest)
    requires Inv(s) && request.epoch == s.epoch && request.id !in s.own.index && HasRoom(s)
    requires !s.gate.exhausted && s.gate.revision != MAX_REVISION
    ensures AdmitLaunchReply(s, request) == Admit
  {
    hide CtlInv, LifeInv;
    LaunchAdmittedExactly(s, request);
  }

  /** An admitted launch whose child starts and is saved is published, live and without
      error, and its reservation has become one active run. */
  lemma {:induction false} LaunchSucceeds(s: State, request: LaunchRequest, ref: Ref, run: RunId, pid: int)
    requires Inv(s) && ref !in s.own.launches && run !in s.own.drawn && run !in s.own.runs && pid > 0
    requires request.epoch == s.epoch && request.id !in s.own.index && HasRoom(s) && !s.gate.exhausted && s.gate.revision != MAX_REVISION
    ensures Legal(s, LaunchRun(request, ref, run, pid))
    ensures LaunchedWell(s.own, After(s, LaunchRun(request, ref, run, pid)).own, request, ref, run)
  {
    LaunchIsAdmitted(s, request);
    hide Inv, Enabled, Apply, Legal, After, LaunchEnabled, LaunchApply, AdmitLaunchReply, LaunchEnd, LaunchedWell;
    LaunchBegins(s, request, ref, run);
    var s1 := LaunchApply(s, DoAdmitLaunch(request, ref));
    var s2 := LaunchApply(s1, DoCommitLaunch(ref, run));
    LaunchFinishes(s.own, s2, request, ref, run, pid);
    LaunchChain(s1, DoCommitLaunch(ref, run), LaunchEnd(ref, pid));
    LaunchChain(s, DoAdmitLaunch(request, ref), [Launching(DoCommitLaunch(ref, run))] + LaunchEnd(ref, pid));
  }

  // ---- Resume -------------------------------------------------------------------

  lemma {:induction false} ResumeChain(s: State, step: ResumeStep, rest: seq<Step>)
    requires ResumeEnabled(s, step) && Legal(ResumeApply(s, step), rest)
    ensures Legal(s, [Resuming(step)] + rest) && After(s, [Resuming(step)] + rest) == After(ResumeApply(s, step), rest)
  {
    hide ResumeEnabled, ResumeApply;
    Chain(s, Resuming(step), rest);
  }

  function ResumeEnd(id: RequestId): seq<Step>
  {
    [Resuming(DoMarkStarted(id))] + ([Resuming(DoSettleResume(id, true, AttemptConfirmed))] + ([Resuming(DoCompleteResume(id))] + []))
  }

  function ResumeMiddle(id: RequestId, pid: int): seq<Step>
  {
    [Resuming(DoCallResume(id, Child(pid, false)))] + ([Resuming(DoTransferResume(id))] + ResumeEnd(id))
  }

  function ResumeRun(request: ResumeRequest, run: RunId, pid: int): seq<Step>
  {
    [Resuming(DoAdmitResume(request))] + ([Resuming(DoCommitResume(request.id, run))] + ([Resuming(DoCreateAttempt(request.id))] + ResumeMiddle(request.id, pid)))
  }

  predicate ResumedWell(o: Ownership, o': Ownership, id: RequestId, run: RunId)
  {
    id in o'.resumes && o'.resumes[id].complete && o'.resumes[id].error.None?
    && o'.resumes[id].result == ResumeResult(Some(AttemptConfirmed), true)
    && id in o'.attempts && o'.attempts[id].phase == AttemptConfirmed
    && run in o'.runs && o'.runs[run].published && o'.runs[run].phase == Waiting && o'.runs[run].snapshot == RunSnapshot(run, Live, false)
    && o'.pending == o.pending && o'.active == o.active + 1 && o'.runs == o.runs[run := o'.runs[run]]
  }

  /** The attempt is this operation's own. */
  predicate Attempting(o: Ownership, o': Ownership, id: RequestId, run: RunId)
  {
    id in o'.resumes && o'.resumes[id].phase == ResumeReserved && !o'.resumes[id].attached && !o'.resumes[id].complete
    && o'.resumes[id].error.None? && o'.resumes[id].snapshot == RunSnapshot(run, RunState.Reserved, false)
    && id in o'.attempts && run !in o.runs && o'.pending == o.pending + 1 && o'.active == o.active && o'.runs == o.runs
  }

  /** The child is owned and its confirmation outstanding. */
  predicate Attached(o: Ownership, o': Ownership, id: RequestId, run: RunId)
  {
    id in o'.resumes && o'.resumes[id].phase == ResumeSettling && o'.resumes[id].attached && !o'.resumes[id].complete
    && o'.resumes[id].error.None? && CleanStart(o'.resumes[id]) && o'.resumes[id].snapshot.run == run
    && id in o'.attempts && o'.pending == o.pending && o'.active == o.active + 1
    && run in o'.runs && o'.runs == o.runs[run := o'.runs[run]]
    && o'.runs[run].phase == Unpublished && o'.runs[run].snapshot == RunSnapshot(run, Live, false)
  }

  lemma {:induction false} ResumeBegins(s: State, request: ResumeRequest, run: RunId)
    requires AdmitResumeReply(s, request) == AdmitNew && request.id !in s.own.attempts && run !in s.own.drawn && run !in s.own.runs
    requires !AdmissionClosed(ResumeApply(s, DoAdmitResume(request)))
    ensures ResumeEnabled(s, DoAdmitResume(request))
    ensures var s1 := ResumeApply(s, DoAdmitResume(request));
            ResumeEnabled(s1, DoCommitResume(request.id, run))
            && var s2 := ResumeApply(s1, DoCommitResume(request.id, run));
               ResumeEnabled(s2, DoCreateAttempt(request.id))
               && Attempting(s.own, ResumeApply(s2, DoCreateAttempt(request.id)).own, request.id, run)
  {
    hide AdmissionClosed, Full;
  }

  lemma {:induction false} ResumeAttaches(o: Ownership, s: State, id: RequestId, run: RunId, pid: int)
    requires Attempting(o, s.own, id, run) && pid > 0
    ensures ResumeEnabled(s, DoCallResume(id, Child(pid, false)))
    ensures var s1 := ResumeApply(s, DoCallResume(id, Child(pid, false)));
            ResumeEnabled(s1, DoTransferResume(id)) && Attached(o, ResumeApply(s1, DoTransferResume(id)).own, id, run)
  {
    hide AdmissionClosed, Full;
  }

  /** Confirmed and published, its ticket not yet completed. */
  predicate Settling(o: Ownership, o': Ownership, id: RequestId, run: RunId)
  {
    id in o'.resumes && o'.resumes[id].phase == ResumeCompleting(true) && o'.resumes[id].attached && o'.resumes[id].snapshot.run == run
    && id in o'.attempts && o'.attempts[id].phase == AttemptConfirmed && o'.pending == o.pending && o'.active == o.active + 1
    && run in o'.runs && o'.runs == o.runs[run := o'.runs[run]]
    && o'.runs[run].published && o'.runs[run].snapshot == RunSnapshot(run, Live, false)
  }

  lemma {:induction false} ResumeMarks(o: Ownership, s: State, id: RequestId, run: RunId)
    requires Attached(o, s.own, id, run)
    ensures ResumeEnabled(s, DoMarkStarted(id))
    ensures var s1 := ResumeApply(s, DoMarkStarted(id));
            Attached(o, s1.own, id, run) && s1.own.resumes[id].result.phase == Some(AttemptStarted) && s1.own.attempts[id].phase == AttemptStarted
  {
  }

  lemma {:induction false} ResumeSettles(o: Ownership, s: State, id: RequestId, run: RunId)
    requires Attached(o, s.own, id, run) && s.own.resumes[id].result.phase == Some(AttemptStarted)
    ensures ResumeEnabled(s, DoSettleResume(id, true, AttemptConfirmed))
    ensures Settling(o, ResumeApply(s, DoSettleResume(id, true, AttemptConfirmed)).own, id, run)
  {
  }

  lemma {:induction false} ResumeCompletes(o: Ownership, s: State, id: RequestId, run: RunId)
    requires Settling(o, s.own, id, run)
    ensures ResumeEnabled(s, DoCompleteResume(id)) && ResumedWell(o, ResumeApply(s, DoCompleteResume(id)).own, id, run)
  {
  }

  lemma {:induction false} ResumeFinishes(o: Ownership, s: State, id: RequestId, run: RunId)
    requires Attached(o, s.own, id, run)
    ensures Legal(s, ResumeEnd(id)) && ResumedWell(o, After(s, ResumeEnd(id)).own, id, run)
  {
    hide Enabled, Apply, Legal, After, ResumeEnabled, ResumeApply, Attached, Settling, ResumedWell;
    ResumeMarks(o, s, id, run);
    var s1 := ResumeApply(s, DoMarkStarted(id));
    ResumeSettles(o, s1, id, run);
    var s2 := ResumeApply(s1, DoSettleResume(id, true, AttemptConfirmed));
    ResumeCompletes(o, s2, id, run);
    Ends(ResumeApply(s2, DoCompleteResume(id)));
    ResumeChain(s2, DoCompleteResume(id), []);
    ResumeChain(s1, DoSettleResume(id, true, AttemptConfirmed), [Resuming(DoCompleteResume(id))] + []);
    ResumeChain(s, DoMarkStarted(id), [Resuming(DoSettleResume(id, true, AttemptConfirmed))] + ([Resuming(DoCompleteResume(id))] + []));
  }

  lemma {:induction false} ResumeGoesOn(o: Ownership, s: State, id: RequestId, run: RunId, pid: int)
    requires Attempting(o, s.own, id, run) && pid > 0
    ensures Legal(s, ResumeMiddle(id, pid)) && ResumedWell(o, After(s, ResumeMiddle(id, pid)).own, id, run)
  {
    ResumeAttaches(o, s, id, run, pid);
    hide Enabled, Apply, Legal, After, ResumeEnabled, ResumeApply, ResumedWell, ResumeEnd;
    var s1 := ResumeApply(s, DoCallResume(id, Child(pid, false)));
    ResumeFinishes(o, ResumeApply(s1, DoTransferResume(id)), id, run);
    ResumeChain(s1, DoTransferResume(id), ResumeEnd(id));
    ResumeChain(s, DoCallResume(id, Child(pid, false)), [Resuming(DoTransferResume(id))] + ResumeEnd(id));
  }

  lemma {:induction false} StaysOpen(s: State, request: ResumeRequest)
    requires AdmitResumeReply(s, request) == AdmitNew && !s.gate.exhausted && s.gate.revision != MAX_REVISION
    ensures ResumeEnabled(s, DoAdmitResume(request)) && !AdmissionClosed(ResumeApply(s, DoAdmitResume(request)))
  {
  }

  /** An admitted resume without a stored attempt, whose child starts and is confirmed,
      is published, live and without error, and its confirmation is durable. */
  lemma {:induction false} ResumeSucceeds(s: State, request: ResumeRequest, run: RunId, pid: int)
    requires request.epoch == s.epoch && request.id !in s.own.resumes && request.id !in s.own.attempts && HasRoom(s)
    requires run !in s.own.drawn && run !in s.own.runs && pid > 0 && !s.gate.exhausted && s.gate.revision != MAX_REVISION
    ensures Legal(s, ResumeRun(request, run, pid))
    ensures ResumedWell(s.own, After(s, ResumeRun(request, run, pid)).own, request.id, run)
  {
    ResumeAdmittedExactly(s, request);
    hide Enabled, Apply, Legal, After, ResumeEnabled, ResumeApply, ResumedWell, ResumeMiddle, AdmitResumeReply, AdmissionClosed;
    StaysOpen(s, request);
    ResumeBegins(s, request, run);
    var s1 := ResumeApply(s, DoAdmitResume(request));
    var s2 := ResumeApply(s1, DoCommitResume(request.id, run));
    ResumeGoesOn(s.own, ResumeApply(s2, DoCreateAttempt(request.id)), request.id, run, pid);
    ResumeChain(s2, DoCreateAttempt(request.id), ResumeMiddle(request.id, pid));
    ResumeChain(s1, DoCommitResume(request.id, run), [Resuming(DoCreateAttempt(request.id))] + ResumeMiddle(request.id, pid));
    ResumeChain(s, DoAdmitResume(request),
                [Resuming(DoCommitResume(request.id, run))] + ([Resuming(DoCreateAttempt(request.id))] + ResumeMiddle(request.id, pid)));
  }

  // ---- Control ------------------------------------------------------------------

  lemma {:induction false} ControlChain(s: State, step: ControlStep, rest: seq<Step>)
    requires ControlEnabled(s, step) && Legal(ControlApply(s, step), rest)
    ensures Legal(s, [Controlling(step)] + rest) && After(s, [Controlling(step)] + rest) == After(ControlApply(s, step), rest)
  {
    hide ControlEnabled, ControlApply;
    Chain(s, Controlling(step), rest);
  }

  function ControlEnd(ref: Ref, effect: ControlEffect): seq<Step>
  {
    [Controlling(DoApplyControl(ref, effect))] + ([Controlling(DoRecordControl(ref, true))] + ([Controlling(DoFinishControl(ref))] + []))
  }

  function ControlRun(run: RunId, intent: Intent, fingerprint: nat, ref: Ref, effect: ControlEffect): seq<Step>
  {
    [Controlling(DoAdmitControl(run, intent, fingerprint, ref))]
    + ([Controlling(DoHoldIntent(ref))] + ([Controlling(DoReserveIntent(ref, CommittedIntent))] + ControlEnd(ref, effect)))
  }

  /** The durable intent is committed, and its pending receipt in the ledger. */
  predicate Intended(c: Controls, c': Controls, run: RunId, intent: Intent, ref: Ref)
  {
    ref in c'.tickets && c'.pending == c.pending + 1 && run in c'.ledgers
    && var t := c'.tickets[ref];
    t.run == run && t.intent == intent && t.phase == Committed && t.receipt == Receipt(intent, Pending, 0)
    && intent.id in c'.ledgers[run].ledger.entries && c'.ledgers[run].ledger.entries[intent.id].receipt == t.receipt
    && intent.id in c'.ledgers[run].tickets && c'.ledgers[run].tickets[intent.id] == ref
  }

  predicate DeliveredWell(c: Controls, c': Controls, run: RunId, intent: Intent, ref: Ref, written: int)
  {
    ref in c'.tickets && c'.tickets[ref].phase == Done && c'.tickets[ref].error.None?
    && c'.tickets[ref].receipt == Receipt(intent, Delivered, written)
    && run in c'.ledgers && !c'.ledgers[run].busy && c'.pending == c.pending
    && intent.id in c'.ledgers[run].tickets && c'.ledgers[run].tickets[intent.id] == ref
    && intent.id in c'.ledgers[run].ledger.entries && c'.ledgers[run].ledger.entries[intent.id].receipt == Receipt(intent, Delivered, written)
  }

  /** The run's ledger has room for this intent. */
  predicate LedgerHasRoom(c: Controls, run: RunId, intent: Intent)
  {
    var l := ControlsOf(c, run).ledger;
    intent.id !in l.entries && |l.entries| < MAX_CONTROL_RECEIPTS
    && (intent.kind == Stop || l.nonLifecycle < MAX_CONTROL_RECEIPTS - RESERVED_LIFECYCLE_RECEIPTS)
  }

  lemma {:induction false} ControlBegins(s: State, run: RunId, intent: Intent, fingerprint: nat, ref: Ref)
    requires ref !in s.ctl.tickets && AdmitControlReply(s, run, intent, fingerprint) == AdmitOne && LedgerHasRoom(s.ctl, run, intent)
    ensures ControlEnabled(s, DoAdmitControl(run, intent, fingerprint, ref))
    ensures var s1 := ControlApply(s, DoAdmitControl(run, intent, fingerprint, ref));
            ControlEnabled(s1, DoHoldIntent(ref))
            && var s2 := ControlApply(s1, DoHoldIntent(ref));
               ControlEnabled(s2, DoReserveIntent(ref, CommittedIntent))
               && Intended(s.ctl, ControlApply(s2, DoReserveIntent(ref, CommittedIntent)).ctl, run, intent, ref)
  {
  }

  lemma {:induction false} ControlWorks(c: Controls, s: State, run: RunId, intent: Intent, ref: Ref, written: int)
    requires Intended(c, s.ctl, run, intent, ref) && ValidReceipt(Receipt(intent, Delivered, written))
    ensures ControlEnabled(s, DoApplyControl(ref, ControlEffect(Delivered, written, false)))
    ensures var s1 := ControlApply(s, DoApplyControl(ref, ControlEffect(Delivered, written, false)));
            ControlEnabled(s1, DoRecordControl(ref, true))
            && var s2 := ControlApply(s1, DoRecordControl(ref, true));
               ControlEnabled(s2, DoFinishControl(ref))
               && DeliveredWell(c, ControlApply(s2, DoFinishControl(ref)).ctl, run, intent, ref, written)
  {
  }

  lemma {:induction false} ControlFinishes(c: Controls, s: State, run: RunId, intent: Intent, ref: Ref, written: int)
    requires Intended(c, s.ctl, run, intent, ref) && ValidReceipt(Receipt(intent, Delivered, written))
    ensures Legal(s, ControlEnd(ref, ControlEffect(Delivered, written, false)))
    ensures DeliveredWell(c, After(s, ControlEnd(ref, ControlEffect(Delivered, written, false))).ctl, run, intent, ref, written)
  {
    ControlWorks(c, s, run, intent, ref, written);
    hide Enabled, Apply, Legal, After, ControlEnabled, ControlApply, DeliveredWell;
    var s1 := ControlApply(s, DoApplyControl(ref, ControlEffect(Delivered, written, false)));
    var s2 := ControlApply(s1, DoRecordControl(ref, true));
    Ends(ControlApply(s2, DoFinishControl(ref)));
    ControlChain(s2, DoFinishControl(ref), []);
    ControlChain(s1, DoRecordControl(ref, true), [Controlling(DoFinishControl(ref))] + []);
    ControlChain(s, DoApplyControl(ref, ControlEffect(Delivered, written, false)),
                 [Controlling(DoRecordControl(ref, true))] + ([Controlling(DoFinishControl(ref))] + []));
  }

  /** An admitted control with room in its ledger, whose intent commits and whose effect
      is delivered in full and saved, answers so without error and frees its run. */
  lemma {:induction false} ControlSucceeds(s: State, run: RunId, intent: Intent, fingerprint: nat, ref: Ref, written: int)
    requires ref !in s.ctl.tickets && AdmitControlReply(s, run, intent, fingerprint) == AdmitOne && LedgerHasRoom(s.ctl, run, intent)
    requires 0 <= written <= intent.inputBytes && (intent.kind == Input ==> written == intent.inputBytes)
    ensures Legal(s, ControlRun(run, intent, fingerprint, ref, ControlEffect(Delivered, written, false)))
    ensures DeliveredWell(s.ctl, After(s, ControlRun(run, intent, fingerprint, ref, ControlEffect(Delivered, written, false))).ctl, run, intent, ref, written)
  {
    hide Enabled, Apply, Legal, After, ControlEnabled, ControlApply, DeliveredWell, ControlEnd, AdmitControlReply, LedgerHasRoom;
    ControlBegins(s, run, intent, fingerprint, ref);
    var end := ControlEnd(ref, ControlEffect(Delivered, written, false));
    var s1 := ControlApply(s, DoAdmitControl(run, intent, fingerprint, ref));
    var s2 := ControlApply(s1, DoHoldIntent(ref));
    ControlFinishes(s.ctl, ControlApply(s2, DoReserveIntent(ref, CommittedIntent)), run, intent, ref, written);
    ControlChain(s2, DoReserveIntent(ref, CommittedIntent), end);
    ControlChain(s1, DoHoldIntent(ref), [Controlling(DoReserveIntent(ref, CommittedIntent))] + end);
    ControlChain(s, DoAdmitControl(run, intent, fingerprint, ref),
                 [Controlling(DoHoldIntent(ref))] + ([Controlling(DoReserveIntent(ref, CommittedIntent))] + end));
  }

  // ---- Abandoning -----------------------------------------------------------------

  /** When the last waiter of a launch that has not begun to start is cancelled, the
      launch cannot start any more; it ends without a trace of its request, which may
      then be admitted again. Any other waiter leaves the launch as it was. */
  lemma {:induction false} LastWaiterAbandons(s: State, ref: Ref)
    requires LaunchEntries(s.epoch, s.own) && ref in s.own.launches && s.own.launches[ref].waiters > 0
    ensures LaunchEnabled(s, DoLeaveLaunch(ref))
    ensures var s1, t := LaunchApply(s, DoLeaveLaunch(ref)), s.own.launches[ref];
            if t.phase.Preparing? && t.waiters == 1 then
              (forall run :: !LaunchEnabled(s1, DoCommitLaunch(ref, run))) && LaunchEnabled(s1, DoFailLaunch(ref, false))
              && var s2 := LaunchApply(s1, DoFailLaunch(ref, false));
                 t.request.id !in s2.own.index && s2.own.pending == s.own.pending - 1 && s2.own.launches[ref].aborted && s2.own.starts == s.own.starts
            else s1.own == s.own.(launches := s.own.launches[ref := t.(waiters := t.waiters - 1)])
  {
    assert LaunchEntry(s.epoch, s.own, ref);
  }

  /** The same for a resume: its work ends before the commit boundary. */
  lemma {:induction false} LastWaiterCancels(s: State, id: RequestId)
    requires ResumeEntries(s.epoch, s.own) && id in s.own.resumes && s.own.resumes[id].waiters > 0
    ensures ResumeEnabled(s, DoLeaveResume(id))
    ensures var s1, t := ResumeApply(s, DoLeaveResume(id)), s.own.resumes[id];
            if t.phase.ResumePreparing? && t.waiters == 1 then
              (forall run :: !ResumeEnabled(s1, DoCommitResume(id, run))) && GivesBack(s, s1, id)
            else s1.own == s.own.(resumes := s.own.resumes[id := t.(waiters := t.waiters - 1)])
  {
    assert ResumeEntry(s.epoch, s.own, id);
  }

  /** Failing it gives its reservation back. */
  predicate GivesBack(s: State, s1: State, id: RequestId)
  {
    ResumeEnabled(s1, DoFailResume(id, ErrOther)) && ResumeApply(s1, DoFailResume(id, ErrOther)).own.pending == s.own.pending - 1
  }

  // ---- Start-up and deferral --------------------------------------------------------

  /** A fresh daemon records its epoch: with success it is bound to the restored
      deferral and open; without, launches stay disabled, and doubt is kept. */
  lemma {:induction false} FreshDaemonBinds(epoch: nat, before: State, restored: Option<Deferral>, result: Persisted)
    ensures var s := NewRuntime(epoch, before.own, before.ctl, before.life);
            LifecycleEnabled(s, DoBeginInitialize) && AdmissionClosed(LifecycleApply(s, DoBeginInitialize))
            && LifecycleEnabled(LifecycleApply(s, DoBeginInitialize), DoFinishInitialize(result, restored))
            && var s' := LifecycleApply(LifecycleApply(s, DoBeginInitialize), DoFinishInitialize(result, restored));
               s'.life.bound == (result == PersistedOk) && s'.life.deferral == (if result == PersistedOk then restored else None)
               && AdmissionClosed(s') == (result != PersistedOk) && s'.gate.disabled == (result != PersistedOk)
               && s'.life.uncertain == (result == PersistUncertain)
  {
  }

  /** An attempt that defers and is saved leaves the deferral for its target, begun when
      the continuous one began and announced once it is a day old; one that is not
      saved leaves the old deferral. */
  lemma {:induction false} AttemptDefers(s: State, ref: Ref, target: TargetId, now: int, id: PreviewId, result: Persisted)
    requires ref !in s.life.updates && id !in s.life.shutdowns && AttemptReply(s) == AdmitAttempt
    ensures LifecycleEnabled(s, DoBeginAttempt(ref, target, now, id))
    ensures var s1 := LifecycleApply(s, DoBeginAttempt(ref, target, now, id));
            LifecycleEnabled(s1, DoFinishUpdate(ref, result))
            && var l, l' := s.life, LifecycleApply(s1, DoFinishUpdate(ref, result)).life;
               var started := if l.deferral.Some? then l.deferral.value.started else now;
               var announced := (l.deferral.Some? && l.deferral.value.notified) || now - started >= 24 * 60 * 60 * 1_000_000_000;
               l'.deferral == (if result == PersistedOk then Some(Deferral(target, started, announced)) else l.deferral)
               && l'.pending == l.pending && l'.uncertain == (l.uncertain || result == PersistUncertain)
  {
    hide BindingOf, HasUncertain, Quiescent;
  }

  /** A due notice that is saved marks the deferral, which is otherwise the same. */
  lemma {:induction false} NoticePublishes(s: State, ref: Ref, now: int, result: Persisted)
    requires ref !in s.life.updates && NoticeReply(s, now) == AdmitNotice
    ensures LifecycleEnabled(s, DoBeginNotice(ref, now))
    ensures var s1 := LifecycleApply(s, DoBeginNotice(ref, now));
            LifecycleEnabled(s1, DoFinishUpdate(ref, result))
            && var l, l' := s.life, LifecycleApply(s1, DoFinishUpdate(ref, result)).life;
               l'.deferral == (if result == PersistedOk then Some(l.deferral.value.(notified := true)) else l.deferral)
               && l'.preview == l.preview && l'.pending == l.pending
  {
    hide BindingOf, HasUncertain, Quiescent;
  }
}
