/** The owner object of the daemon, with one method for each section its mutex
    guards. Every method is proved to be the step of the state machine it stands for;
    the answers of ports arrive as parameters. Tickets are reached through
    references, as goroutines reach them in the program. */
module RuntimeOwner {
  import opened Options
  import opened RuntimeState
  import opened LaunchSteps
  import opened ResumeSteps
  import opened ControlSteps
  import opened ShutdownSteps
  import opened LifecycleSteps

  class Runtime {
    const epoch: nat
    var lifecycleBound: bool
    var lifecycleStarting: bool
    var lifecycleUncertain: bool
    var updateDeferral: Option<Deferral>
    var shutdownPreview: Option<Preview>
    var shutdownTickets: map<PreviewId, ShutdownTicket>
    var shutdownPreparing: bool
    var shutdownCommitted: bool
    var lifecyclePending: int
    var updates: map<Ref, UpdateTicket>
    var cleanChecked: bool
    var gate: Gate
    var controlsPending: int
    var controls: map<RunId, RunControls>
    var controlTickets: map<Ref, ControlTicket>
    var pending: int
    var active: int
    var tickets: map<RequestId, Ref>
    var launches: map<Ref, LaunchTicket>
    var resumes: map<RequestId, ResumeTicket>
    var runs: map<RunId, OwnedRun>

    // What the journal, the random source and the native ports have seen.
    ghost var attempts: map<RequestId, Attempt>
    ghost var drawn: map<RunId, Drawer>
    ghost var starts: multiset<(nat, RequestId)>
    ghost var resumed: multiset<RequestId>
    ghost var intents: multiset<(RunId, RequestId)>
    ghost var applied: multiset<(RunId, RequestId)>
    ghost var decided: multiset<(nat, PreviewId)>
    ghost var closed: multiset<RunId>
    ghost var cleaned: multiset<nat>

    ghost function Owns(): Ownership
      reads `pending, `active, `tickets, `launches, `resumes, `runs, `attempts, `drawn, `starts, `resumed
    {
      Ownership(pending, active, tickets, launches, resumes, runs, attempts, drawn, starts, resumed)
    }

    ghost function Controlled(): Controls
      reads `controlsPending, `controls, `controlTickets, `intents, `applied
    {
      Controls(controlsPending, controls, controlTickets, intents, applied)
    }

    ghost function Life(): Lifecycle
      reads `lifecycleBound, `lifecycleStarting, `lifecycleUncertain, `shutdownPreparing, `shutdownCommitted, `lifecyclePending,
            `shutdownPreview, `shutdownTickets, `updates, `updateDeferral, `cleanChecked, `decided, `closed, `cleaned
    {
      Lifecycle(lifecycleBound, lifecycleStarting, lifecycleUncertain, shutdownPreparing, shutdownCommitted, lifecyclePending,
                shutdownPreview, shutdownTickets, updates, updateDeferral, cleanChecked, decided, closed, cleaned)
    }

    ghost function State(): State
      reads this
    {
      RuntimeState.State.State(epoch, gate, Owns(), Controlled(), Life())
    }

    /** A fresh daemon over the facts earlier ones left behind. */
    constructor (epoch: nat, ghost before: State)
      ensures State() == NewRuntime(epoch, before.own, before.ctl, before.life)
    {
      this.epoch := epoch;
      lifecycleBound, lifecycleStarting, lifecycleUncertain := false, false, false;
      updateDeferral, shutdownPreview, shutdownTickets := None, None, map[];
      shutdownPreparing, shutdownCommitted, lifecyclePending := false, false, 0;
      updates, cleanChecked := map[], false;
      gate := Gate(false, false, 0);
      controlsPending, controls, controlTickets := 0, map[], map[];
      pending, active, tickets, launches, resumes, runs := 0, 0, map[], map[], map[], map[];
      attempts, drawn, starts, resumed := before.own.attempts, before.own.drawn, before.own.starts, before.own.resumed;
      intents, applied := before.ctl.intents, before.ctl.applied;
      decided, closed, cleaned := before.life.decided, before.life.closed, before.life.cleaned;
    }

    static lemma {:induction false} OneLess<T>(all: set<T>, todo: set<T>, x: T)
      requires x in todo
      ensures |all * (todo - {x})| == |all * todo| - if x in all then 1 else 0
    {
      assert all * (todo - {x}) == (all * todo) - {x};
    }

    method AdmissionIsClosed() returns (closed: bool)
      ensures closed == AdmissionClosed(State())
    {
      closed := gate.disabled || shutdownPreparing || shutdownCommitted || lifecycleStarting;
    }

    // ---- Launch ---------------------------------------------------------------

    /** The checks under the lock, in their order. */
    method CheckLaunch(request: LaunchRequest) returns (reply: LaunchAdmission)
      ensures reply == AdmitLaunchReply(State(), request)
      ensures reply.Join? ==> reply.ref in launches
    {
      if request.epoch != epoch { return Refuse(ErrChanged); }
      if request.id in tickets && tickets[request.id] in launches {
        var ref := tickets[request.id];
        if launches[ref].request != request { return Refuse(ErrChanged); }
        return LaunchAdmission.Join(ref);
      }
      if gate.exhausted || gate.revision == MAX_REVISION { return Refuse(ErrLimit); }
      var busy := AdmissionIsClosed();
      if busy { return Refuse(ErrBusy); }
      if pending + active >= MAX_ACTIVE_RUNS || |tickets| + |resumes| >= MAX_LAUNCH_REQUESTS { return Refuse(ErrLimit); }
      return Admit;
    }

    /** Joins an identical request, or admits a new one as the ticket `next`. */
    method Launch(request: LaunchRequest, next: Ref) returns (reply: LaunchAdmission)
      requires next !in launches
      modifies `pending, `tickets, `launches, `gate
      ensures reply == AdmitLaunchReply(old(State()), request)
      ensures gate == if reply.Admit? then old(gate).Bump() else old(gate)
      ensures Owns() == match reply
                        case Refuse(_) => old(Owns())
                        case Join(ref) => JoinLaunch(old(Owns()), ref)
                        case Admit => AdmitLaunch(old(Owns()), request, next)
    {
      hide AdmitLaunchReply;
      reply := CheckLaunch(request);
      if reply.Admit? {
        var ticket := LaunchTicket(request, 0, false, false, false, false, NoSnapshot, None, None, NotCalled, None, Preparing);
        tickets := tickets[request.id := next];
        pending := pending + 1;
        gate := gate.Bump();
        launches := launches[next := ticket.(waiters := ticket.waiters + 1)];
      } else if reply.Join? {
        var ticket := launches[reply.ref];
        launches := launches[reply.ref := ticket.(waiters := ticket.waiters + 1)];
      }
    }

    /** A waiter leaves; `cancelled` says that its own context ended. */
    method LeaveLaunch(ref: Ref)
      requires ref in launches && launches[ref].waiters > 0
      modifies `launches
      ensures Owns() == LaunchSteps.LeaveLaunch(old(Owns()), ref)
    {
      var t := launches[ref];
      t := t.(waiters := t.waiters - 1);
      if !t.complete && !t.starting {
        if t.waiters == 0 { t := t.(abandoned := true); }
      }
      launches := launches[ref := t];
    }

    /** The commit boundary of a prepared launch. */
    method CommitLaunch(ref: Ref, run: RunId) returns (ok: bool)
      requires LaunchIn(Owns(), ref, Preparing)
      modifies `launches, `drawn, `gate
      ensures ok == !old(launches)[ref].abandoned
      ensures gate == if ok then old(gate).Bump() else old(gate)
      ensures Owns() == if ok then LaunchSteps.CommitLaunch(epoch, old(Owns()), ref, run) else old(Owns())
    {
      if launches[ref].abandoned { return false; }
      launches := launches[ref := launches[ref].(starting := true, snapshot := RunSnapshot(run, Reserved, false), phase := Reserving)];
      drawn := drawn[run := ByLaunch(epoch, ref)];
      gate := gate.Bump();
      ok := true;
    }

    /** The started child is owned from here on, whatever the caller does. */
    method TransferLaunch(ref: Ref)
      requires LaunchIn(Owns(), ref, Returned) && launches[ref].start.Child?
      modifies `pending, `active, `runs, `launches, `gate
      ensures gate == old(gate).Bump()
      ensures Owns() == LaunchSteps.TransferLaunch(old(Owns()), ref)
    {
      var t := launches[ref];
      var descriptor := t.snapshot.Started(t.start.pid);
      pending := pending - 1;
      active := active + 1;
      runs := runs[t.snapshot.run := OwnedRun(descriptor, false, false, false, None, None, Unpublished)];
      gate := gate.Bump();
      launches := launches[ref := t.(snapshot := descriptor, phase := Publishing)];
    }

    method PublishLaunch(ref: Ref, saved: bool)
      requires ref in launches && launches[ref].start.Child? && launches[ref].snapshot.run in runs
      modifies `runs, `launches, `gate
      ensures gate == old(gate).Bump()
      ensures Owns() == LaunchSteps.PublishLaunch(old(Owns()), ref, saved)
      ensures var t, was := old(launches)[ref], old(runs)[old(launches)[ref].snapshot.run];
              ref in launches && t.snapshot.run in runs
              && var t', run := launches[ref], runs[t.snapshot.run];
              t'.complete && t'.result == Some(run.snapshot)
              && if t.start.pid > 0 && saved then run.published && run.snapshot == was.snapshot && t'.error == t.error
                 else !run.published && run.snapshot == was.snapshot.MarkUncertain() && t'.error == Some(ErrUnknown)
    {
      var t := launches[ref];
      var run := runs[t.snapshot.run];
      if t.start.pid <= 0 || !saved {
        run := MarkRunUncertain(run);
        t := t.(error := Some(ErrUnknown));
      } else {
        run := run.(published := true);
      }
      t := t.(result := Some(run.snapshot), saved := Some(saved), complete := true, phase := Finished(false));
      gate := gate.Bump();
      runs := runs[t.snapshot.run := run.(phase := Waiting)];
      launches := launches[ref := t];
    }

    /** The first section of a failure; an uncertain one is saved outside the lock
        and finished by `FinishUncertainLaunch`. */
    method FailLaunch(ref: Ref, unknown: bool)
      requires ref in launches && MayFail(launches[ref], unknown)
      modifies `pending, `tickets, `launches, `gate
      ensures Owns() == LaunchSteps.FailLaunch(old(Owns()), ref, unknown)
      ensures gate == if unknown && old(launches)[ref].starting then old(gate) else old(gate).Bump()
    {
      hide MayFail;
      var t := launches[ref];
      var uncertain := t.starting && unknown;
      if t.starting { t := t.(result := Some(t.snapshot)); }
      if uncertain {
        t := t.(snapshot := t.snapshot.MarkUncertain());
        t := t.(result := Some(t.snapshot), error := Some(ErrUnknown));
        launches := launches[ref := t.(phase := SavingUncertain)];
        return;
      }
      var drop := !t.starting && t.abandoned;
      if drop {
        t := t.(aborted := true);
      } else {
        t := t.(error := Some(if unknown then ErrUnknown else ErrOther));
      }
      pending := pending - 1;
      tickets := if drop then tickets - {t.request.id} else tickets;
      launches := launches[ref := t.(complete := true, phase := Finished(false))];
      gate := gate.Bump();
    }

    method FinishUncertainLaunch(ref: Ref)
      requires LaunchIn(Owns(), ref, SavingUncertain)
      modifies `launches, `gate
      ensures gate == old(gate).Bump()
      ensures Owns() == LaunchSteps.FinishUncertainLaunch(old(Owns()), ref)
    {
      launches := launches[ref := launches[ref].(complete := true, phase := Finished(true))];
      gate := gate.Bump();
    }

    /** `waited` is false when the single Wait returned an error. */
    method ObserveWait(id: RunId, waited: bool)
      requires id in runs && runs[id].phase == Waiting
      modifies `runs, `gate
      ensures gate == old(gate).Bump()
      ensures Owns() == LaunchSteps.ObserveWait(old(Owns()), id, waited)
    {
      var run := runs[id];
      var known := waited && run.snapshot.state == Live;
      if known {
        run := run.(snapshot := run.snapshot.(state := Exited));
      } else {
        run := MarkRunUncertain(run).(waitFailed := true);
      }
      runs := runs[id := run.(waited := Some(waited), phase := SavingExit(known))];
      gate := gate.Bump();
    }

    method FinishReconcile(id: RunId, saved: bool)
      requires id in runs && runs[id].phase.SavingExit?
      modifies `runs, `active, `gate
      ensures gate == old(gate).Bump()
      ensures Owns() == LaunchSteps.FinishReconcile(old(Owns()), id, saved)
    {
      var run := runs[id];
      var known := run.phase.exitKnown;
      if !saved { run := MarkRunUncertain(run); } else { run := run.(exitSaved := known); }
      if known { active := active - 1; }
      runs := runs[id := run.(journaled := Some(saved), phase := Reconciled(known))];
      gate := gate.Bump();
    }

    // ---- Resume ---------------------------------------------------------------

    method CheckResume(request: ResumeRequest) returns (reply: ResumeAdmission)
      ensures reply == AdmitResumeReply(State(), request)
      ensures reply.JoinExisting? ==> request.id in resumes
    {
      if request.epoch != epoch { return RefuseResume(ErrChanged); }
      if request.id in resumes {
        if resumes[request.id].request != request { return RefuseResume(ErrChanged); }
        return JoinExisting;
      }
      var busy := AdmissionIsClosed();
      if busy { return RefuseResume(ErrBusy); }
      if pending + active >= MAX_ACTIVE_RUNS || |tickets| + |resumes| >= MAX_LAUNCH_REQUESTS { return RefuseResume(ErrLimit); }
      return AdmitNew;
    }

    method Resume(request: ResumeRequest) returns (reply: ResumeAdmission)
      modifies `pending, `resumes, `gate
      ensures reply == AdmitResumeReply(old(State()), request)
      ensures gate == if reply.AdmitNew? then old(gate).Bump() else old(gate)
      ensures Owns() == match reply
                        case RefuseResume(_) => old(Owns())
                        case JoinExisting => JoinResume(old(Owns()), request.id)
                        case AdmitNew => AdmitResume(old(Owns()), request)
    {
      hide AdmitResumeReply;
      reply := CheckResume(request);
      if reply.AdmitNew? {
        var ticket := ResumeTicket(request, 0, false, false, false, false, false, NoSnapshot, NoResult, None, NotCalled, None, None, ResumePreparing);
        pending := pending + 1;
        gate := gate.Bump();
        resumes := resumes[request.id := ticket.(waiters := ticket.waiters + 1)];
      } else if reply.JoinExisting? {
        var ticket := resumes[request.id];
        resumes := resumes[request.id := ticket.(waiters := ticket.waiters + 1)];
      }
    }

    method LeaveResume(id: RequestId)
      requires id in resumes && resumes[id].waiters > 0
      modifies `resumes
      ensures Owns() == ResumeSteps.LeaveResume(old(Owns()), id)
    {
      var t := resumes[id];
      t := t.(waiters := t.waiters - 1);
      if !t.complete && !t.starting {
        if t.waiters == 0 { t := t.(cancelled := true); }
      }
      resumes := resumes[id := t];
    }

    /** The completion section every ending of a resume runs through. */
    method CompleteResume(id: RequestId, result: ResumeResult, error: Option<Failure>, possibleChild: bool)
      requires id in resumes
      modifies `pending, `resumes, `gate
      ensures gate == old(gate).Bump()
      ensures Owns() == Complete(old(Owns()), id, result, error, possibleChild)
    {
      var t := resumes[id].(result := result, error := error, possibleChild := possibleChild);
      if !t.attached && !possibleChild { pending := pending - 1; }
      resumes := resumes[id := t.(complete := true, phase := ResumeFinished)];
      gate := gate.Bump();
    }

    /** A stored attempt is answered, whatever its phase; it is never started. */
    method AnswerStored(id: RequestId, attempt: Attempt)
      requires id in resumes && id in attempts && attempts[id] == attempt
      modifies `pending, `resumes, `gate
      ensures gate == old(gate).Bump()
      ensures Owns() == ResumeSteps.AnswerStored(old(Owns()), id)
      ensures id in resumes
              && var t, same := resumes[id], attempt.selection == old(resumes)[id].request.selection;
              t.complete && !t.possibleChild && t.result == ResumeResult(if same then Some(attempt.phase) else None, false)
              && (t.error.None? <==> same && attempt.phase == AttemptConfirmed)
              && (t.error == Some(ErrRejected) <==> same && attempt.phase == AttemptFailedBeforeStart)
              && (t.error == Some(ErrChanged) <==> !same)
    {
      resumes := resumes[id := resumes[id].(stored := Some(attempt))];
      if attempt.selection != resumes[id].request.selection {
        CompleteResume(id, NoResult, Some(ErrChanged), false);
      } else {
        CompleteResume(id, ResumeResult(Some(attempt.phase), false), StoredError(attempt.phase), false);
      }
    }

    /** The commit boundary: the context and admission are checked again. */
    method CommitResume(id: RequestId, run: RunId) returns (error: Option<Failure>)
      requires ResumeIn(Owns(), id, ResumePreparing)
      modifies `pending, `resumes, `drawn, `gate
      ensures error.None? <==> !old(resumes)[id].cancelled && !AdmissionClosed(old(State()))
      ensures gate == old(gate).Bump()
      ensures Owns() == match error
                        case None => ResumeSteps.CommitResume(epoch, old(Owns()), id, run)
                        case Some(e) => FailResume(old(Owns()), id, e)
    {
      var busy := AdmissionIsClosed();
      if resumes[id].cancelled {
        error := Some(ErrOther);
      } else if busy {
        error := Some(ErrBusy);
      } else {
        error := None;
        resumes := resumes[id := resumes[id].(starting := true, snapshot := RunSnapshot(run, Reserved, false),
                                              result := ResumeResult(Some(AttemptUnknown), false), phase := ResumeReserving)];
        drawn := drawn[run := ByResume(epoch, id)];
        gate := gate.Bump();
      }
      if error.Some? { CompleteResume(id, NoResult, error, false); }
    }

    /** The reservation was created by this operation. */
    method AttemptCreated(id: RequestId)
      requires ResumeIn(Owns(), id, ResumeReserving) && id !in attempts
      modifies `resumes, `attempts, `gate
      ensures gate == old(gate).Bump()
      ensures Owns() == CreateAttempt(epoch, old(Owns()), id)
    {
      attempts := attempts[id := Attempt(resumes[id].request.selection, AttemptReserved, epoch)];
      resumes := resumes[id := resumes[id].(result := ResumeResult(Some(AttemptReserved), false), phase := ResumeReserved)];
      gate := gate.Bump();
    }

    method TransferResume(id: RequestId)
      requires ResumeIn(Owns(), id, ResumeReturned) && resumes[id].start.Child?
      modifies `pending, `active, `runs, `resumes, `gate
      ensures gate == old(gate).Bump()
      ensures Owns() == ResumeSteps.TransferResume(old(Owns()), id)
    {
      var t := resumes[id];
      var descriptor := t.snapshot.Started(t.start.pid);
      pending := pending - 1;
      active := active + 1;
      runs := runs[t.snapshot.run := OwnedRun(descriptor, false, false, false, None, None, Unpublished)];
      t := t.(attached := true, result := ResumeResult(Some(AttemptReserved), true), snapshot := descriptor);
      resumes := resumes[id := t.(phase := ResumeSettling)];
      gate := gate.Bump();
    }

    /** The resumed child was confirmed, or its publication is uncertain; `stored`
        is the phase the journal holds in the second case. */
    method SettleResume(id: RequestId, confirmed: bool, ghost stored: AttemptPhase)
      requires ResumeIn(Owns(), id, ResumeSettling) && id in attempts && resumes[id].snapshot.run in runs
      modifies `runs, `resumes, `attempts, `gate
      ensures gate == old(gate).Bump()
      ensures Owns() == ResumeSteps.SettleResume(old(Owns()), id, confirmed, stored)
      ensures var r := old(resumes)[id].snapshot.run;
              r in runs && runs[r].published == confirmed
              && runs[r].snapshot == if confirmed then old(runs)[r].snapshot else old(runs)[r].snapshot.MarkUncertain()
    {
      var t := resumes[id];
      var run := runs[t.snapshot.run];
      if !confirmed { run := MarkRunUncertain(run); } else { run := run.(published := true); }
      gate := gate.Bump();
      runs := runs[t.snapshot.run := run];
      resumes := resumes[id := t.(confirmed := Some(confirmed), phase := ResumeCompleting(confirmed))];
      attempts := attempts[id := attempts[id].(phase := if confirmed then AttemptConfirmed else stored)];
    }

    // ---- Control --------------------------------------------------------------

    method CheckControl(run: RunId, intent: Intent, fingerprint: nat) returns (reply: ControlAdmission)
      ensures reply == AdmitControlReply(State(), run, intent, fingerprint)
      ensures reply.AdmitOne? ==> controlsPending < MAX_CONTROL_COORDINATORS
    {
      if run !in runs { return RefuseControl(ErrNotFound); }
      var busy := false;
      if run in controls {
        busy := controls[run].busy;
        if intent.id in controls[run].tickets && controls[run].tickets[intent.id] in controlTickets {
          var ref := controls[run].tickets[intent.id];
          if controlTickets[ref].intent != intent || controlTickets[ref].fingerprint != fingerprint { return RefuseControl(ErrChanged); }
          return Inspect(ref);
        }
      }
      if gate.exhausted || gate.revision == MAX_REVISION { return RefuseControl(ErrLimit); }
      if shutdownPreparing || ((shutdownCommitted || lifecycleUncertain) && intent.kind != Stop) { return RefuseControl(ErrBusy); }
      if runs[run].snapshot.state != Live { return RefuseControl(ErrChanged); }
      if intent.kind == Input && !runs[run].published { return RefuseControl(ErrRejected); }
      if controlsPending >= MAX_CONTROL_COORDINATORS || busy { return RefuseControl(ErrBusy); }
      return AdmitOne;
    }

    /** An existing receipt is inspected; a new control becomes the ticket `next`. */
    method Control(run: RunId, intent: Intent, fingerprint: nat, next: Ref) returns (reply: ControlAdmission)
      requires next !in controlTickets
      modifies `controls, `controlTickets, `controlsPending, `gate
      ensures reply == AdmitControlReply(old(State()), run, intent, fingerprint)
      ensures gate == if reply.AdmitOne? then old(gate).Bump() else old(gate)
      ensures Controlled() == if reply.AdmitOne? then AdmitControl(old(Controlled()), run, intent, fingerprint, next) else old(Controlled())
    {
      hide AdmitControlReply;
      reply := CheckControl(run, intent, fingerprint);
      if reply.AdmitOne? {
        var own := RunControls(EmptyLedger, map[], false);
        if run in controls { own := controls[run]; }
        own := own.(tickets := own.tickets[intent.id := next], busy := true);
        gate := gate.Bump();
        controls := controls[run := own];
        controlTickets := controlTickets[next :=
          ControlTicket(run, intent, fingerprint, Receipt(intent, Pending, 0), None, None, None, false, Validating)];
        controlsPending := controlsPending + 1;
      }
    }

    /** Publishes a receipt and frees the run; a dropped ticket may be retried. */
    method FinishControl(ref: Ref, receipt: Receipt, error: Option<Failure>, drop: bool)
      requires Owned(Controlled(), ref)
      modifies `controls, `controlTickets, `controlsPending, `gate
      ensures gate == old(gate).Bump()
      ensures Controlled() == Finish(old(Controlled()), ref, receipt, error, drop)
    {
      var t := controlTickets[ref];
      var own := controls[t.run];
      if drop { own := own.(tickets := own.tickets - {t.intent.id}); }
      gate := gate.Bump();
      controls := controls[t.run := own.(busy := false)];
      controlTickets := controlTickets[ref := t.(receipt := receipt, error := error, phase := Done)];
      controlsPending := controlsPending - 1;
    }

    method RejectControl(ref: Ref, error: Failure)
      requires Owned(Controlled(), ref)
      modifies `controls, `controlTickets, `controlsPending, `gate
      ensures gate == old(gate).Bump()
      ensures Controlled() == ControlSteps.RejectControl(old(Controlled()), ref, error)
    {
      FinishControl(ref, controlTickets[ref].receipt.(outcome := Rejected), Some(error), true);
    }

    /** Takes the intent into the ledger, if the run is still live. */
    method HoldIntent(ref: Ref) returns (held: bool)
      requires Owned(Controlled(), ref)
      modifies `controls, `controlTickets
      ensures Controlled() == ControlSteps.HoldIntent(old(Controlled()), ref, LiveRun(Owns(), old(controlTickets)[ref].run))
      ensures held <==> Controlled().tickets[ref].phase == Held
    {
      var t := controlTickets[ref];
      var own := controls[t.run];
      held := false;
      if t.run in runs && runs[t.run].snapshot.state == Live {
        var reply := Reserve(own.ledger, t.intent, t.fingerprint);
        if reply.LedgerOk? {
          held := true;
          t := t.(receipt := reply.receipt);
          own := own.(ledger := reply.ledger);
        }
      }
      controls := if held then controls[t.run := own] else controls;
      controlTickets := controlTickets[ref := t.(phase := if held then Held else Rejecting)];
    }

    method AbandonIntent(ref: Ref)
      requires Owned(Controlled(), ref)
      modifies `controls, `controlTickets
      ensures Controlled() == ControlSteps.AbandonIntent(old(Controlled()), ref)
    {
      hide Abandon;
      var t := controlTickets[ref];
      var own := controls[t.run];
      var reply := Abandon(own.ledger, t.intent.id);
      if reply.LedgerOk? {
        controls := controls[t.run := own.(ledger := reply.ledger)];
        controlTickets := controlTickets[ref := t.(phase := Rejecting)];
      } else {
        controlTickets := controlTickets[ref := t.(phase := Finishing(t.receipt.(outcome := Unknown)))];
      }
    }

    /** Completes the receipt in the ledger with what the journal answered. */
    method RecordControl(ref: Ref, saved: bool)
      requires Owned(Controlled(), ref) && controlTickets[ref].phase.Completing?
      modifies `controls, `controlTickets
      ensures Controlled() == ControlSteps.RecordControl(old(Controlled()), ref, saved)
      ensures var t := old(controlTickets)[ref]; var e := t.phase.effect; var ledger := old(controls)[t.run].ledger;
              ref in controlTickets && controlTickets[ref].phase.Finishing?
              && var final := controlTickets[ref].phase.final;
              (!saved || e.failed ==> final.outcome == Unknown)
              && (saved && !e.failed && e.outcome != Pending && ValidReceipt(t.receipt.(outcome := e.outcome, written := e.written))
                  && t.intent.id in ledger.entries && ledger.entries[t.intent.id].receipt == t.receipt && t.receipt.outcome == Pending ==>
                    final.outcome == e.outcome && final.written == e.written)
    {
      var t := controlTickets[ref];
      var own := controls[t.run];
      var effect := t.phase.effect;
      var result := t.receipt.(outcome := effect.outcome, written := effect.written);
      if !ValidReceipt(result) { result := result.(outcome := Unknown, written := 0); }
      if !saved || effect.failed { result := result.(outcome := Unknown); }
      var reply := Record(own.ledger, t.intent.id, result.outcome, result.written);
      if reply.LedgerOk? {
        controls := controls[t.run := own.(ledger := reply.ledger)];
        result := reply.receipt;
      } else {
        result := result.(outcome := Unknown);
      }
      controlTickets := controlTickets[ref := t.(saved := saved, phase := Finishing(result))];
    }

    // ---- Roster ---------------------------------------------------------------

    method ListRuns() returns (rows: set<RunSnapshot>)
      ensures rows == set r | r in runs :: runs[r].snapshot
    {
      rows := {};
      var todo := runs.Keys;
      while todo != {}
        invariant todo <= runs.Keys
        invariant rows == set r | r in runs.Keys - todo :: runs[r].snapshot
        decreases |todo|
      {
        var r :| r in todo;
        rows := rows + {runs[r].snapshot};
        todo := todo - {r};
      }
    }

    /** Launches still starting, and uncertain ones without an owned run. */
    method ListLaunches() returns (rows: set<RunSnapshot>)
      ensures rows == set id | id in tickets && tickets[id] in launches && ListedLaunch(launches[tickets[id]])
                               && LaunchSnapshot(launches[tickets[id]]).run !in runs :: LaunchSnapshot(launches[tickets[id]])
    {
      rows := {};
      var todo := tickets.Keys;
      while todo != {}
        invariant todo <= tickets.Keys
        invariant rows == set id | id in tickets.Keys - todo && tickets[id] in launches && ListedLaunch(launches[tickets[id]])
                                   && LaunchSnapshot(launches[tickets[id]]).run !in runs :: LaunchSnapshot(launches[tickets[id]])
        decreases |todo|
      {
        var id :| id in todo;
        if tickets[id] in launches {
          var t := launches[tickets[id]];
          var snapshot := if t.starting && !t.complete then Some(t.snapshot) else t.result;
          if snapshot.Some? && (snapshot.value.uncertain || (t.starting && !t.complete)) {
            if snapshot.value.run !in runs { rows := rows + {snapshot.value}; }
          }
        }
        todo := todo - {id};
      }
    }

    method ListResumes() returns (rows: set<RunSnapshot>)
      ensures rows == set id | id in resumes && ListedResume(resumes[id]) :: resumes[id].snapshot.MarkUncertain()
    {
      rows := {};
      var todo := resumes.Keys;
      while todo != {}
        invariant todo <= resumes.Keys
        invariant rows == set id | id in resumes.Keys - todo && ListedResume(resumes[id]) :: resumes[id].snapshot.MarkUncertain()
        decreases |todo|
      {
        var id :| id in todo;
        var t := resumes[id];
        if !(t.attached || (!t.possibleChild && (!t.starting || t.complete))) { rows := rows + {t.snapshot.MarkUncertain()}; }
        todo := todo - {id};
      }
    }

    /** Owned runs, and the reservations that may still hide a child. */
    method List() returns (rows: set<RunSnapshot>)
      ensures rows == Roster(Owns())
    {
      var a := ListRuns();
      var b := ListLaunches();
      var c := ListResumes();
      rows := a + b + c;
    }

    method CountPublishingLaunches() returns (n: nat)
      ensures n == |PublishingLaunches(Owns())|
    {
      ghost var all := PublishingLaunches(Owns());
      n := 0;
      var todo := tickets.Keys;
      assert all * todo == all;
      while todo != {}
        invariant todo <= tickets.Keys && n + |all * todo| == |all|
        decreases |todo|
      {
        var id :| id in todo;
        OneLess(all, todo, id);
        if tickets[id] in launches {
          var t := launches[tickets[id]];
          if t.starting && !t.complete && t.snapshot.run in runs {
            n := n + 1;
          }
        }
        todo := todo - {id};
      }
      assert all * todo == {};
    }

    method CountPublishingResumes() returns (n: nat)
      ensures n == |PublishingResumes(Owns())|
    {
      ghost var all := PublishingResumes(Owns());
      n := 0;
      var todo := resumes.Keys;
      assert all * todo == all;
      while todo != {}
        invariant todo <= resumes.Keys && n + |all * todo| == |all|
        decreases |todo|
      {
        var id :| id in todo;
        OneLess(all, todo, id);
        var t := resumes[id];
        if t.starting && !t.complete && t.attached && t.snapshot.run in runs {
          n := n + 1;
        }
        todo := todo - {id};
      }
      assert all * todo == {};
    }

    method CountReconciling() returns (n: nat)
      ensures n == |ReconcilingRuns(Owns())|
    {
      ghost var all := ReconcilingRuns(Owns());
      n := 0;
      var todo := runs.Keys;
      assert all * todo == all;
      while todo != {}
        invariant todo <= runs.Keys && n + |all * todo| == |all|
        decreases |todo|
      {
        var r :| r in todo;
        OneLess(all, todo, r);
        if runs[r].snapshot.state == Exited && !runs[r].phase.Reconciled? {
          n := n + 1;
        }
        todo := todo - {r};
      }
      assert all * todo == {};
    }

    method ListShutdown() returns (rows: set<RunSnapshot>)
      ensures rows == ShutdownRoster(Owns())
    {
      var listed := List();
      rows := set x | x in listed && (x.state != Exited || x.uncertain);
    }

    /** The exact state a shutdown decision is bound to. */
    method CurrentBinding(id: PreviewId) returns (b: Binding)
      ensures b == BindingOf(State(), id)
    {
      var rows := ListShutdown();
      var launching := CountPublishingLaunches();
      var resuming := CountPublishingResumes();
      var reconciling := CountReconciling();
      b := Binding(epoch, id, gate.revision, rows, |rows|, pending + launching + resuming, controlsPending, reconciling);
    }

    method Uncertain() returns (yes: bool)
      ensures yes == HasUncertain(State())
    {
      if lifecycleUncertain { return true; }
      var decisions := shutdownTickets.Keys;
      while decisions != {}
        invariant decisions <= shutdownTickets.Keys
        invariant forall p :: p in shutdownTickets.Keys - decisions ==> shutdownTickets[p].outcome != ShutdownUnknown
        decreases |decisions|
      {
        var p :| p in decisions;
        if shutdownTickets[p].outcome == ShutdownUnknown { return true; }
        decisions := decisions - {p};
      }
      var owned := runs.Keys;
      while owned != {}
        invariant owned <= runs.Keys
        invariant forall r :: r in runs.Keys - owned ==> !runs[r].snapshot.uncertain
        decreases |owned|
      {
        var r :| r in owned;
        if runs[r].snapshot.uncertain { return true; }
        owned := owned - {r};
      }
      var named := tickets.Keys;
      while named != {}
        invariant named <= tickets.Keys
        invariant forall id :: id in tickets.Keys - named && tickets[id] in launches && launches[tickets[id]].result.Some? ==>
                    !launches[tickets[id]].result.value.uncertain
        decreases |named|
      {
        var id :| id in named;
        if tickets[id] in launches && launches[tickets[id]].result.Some? && launches[tickets[id]].result.value.uncertain { return true; }
        named := named - {id};
      }
      return false;
    }

    // ---- Shutdown ---------------------------------------------------------------

    method PreviewShutdown(id: PreviewId) returns (error: Option<Failure>)
      modifies `shutdownPreview
      ensures error == PreviewReply(old(State()))
      ensures Life() == if error.None? then ShutdownSteps.PreviewShutdown(old(State()), id) else old(Life())
    {
      if shutdownPreparing || shutdownCommitted || lifecycleStarting || lifecyclePending > 0 || lifecycleUncertain { return Some(ErrBusy); }
      if gate.exhausted || gate.revision == MAX_REVISION { return Some(ErrLimit); }
      var binding := CurrentBinding(id);
      var rows := ListShutdown();
      shutdownPreview := Some(Preview(binding, rows));
      error := None;
    }

    method CancelShutdown(binding: Binding) returns (error: Option<Failure>)
      modifies `shutdownPreview
      ensures error == CancelReply(old(Life()), binding)
      ensures Life() == old(Life()).(preview := if error.None? then None else old(shutdownPreview))
    {
      if shutdownPreview.None? || shutdownPreview.value.binding != binding || shutdownPreparing || shutdownCommitted || lifecycleUncertain {
        return Some(ErrChanged);
      }
      shutdownPreview := None;
      error := None;
    }

    /** Everything a confirmation must pass, in the order it is checked. */
    method CheckConfirmation(binding: Binding, acknowledged: bool, purpose: Purpose) returns (reply: ConfirmAdmission)
      ensures reply == ConfirmReply(State(), binding, acknowledged, purpose)
      ensures reply.AdmitConfirm? ==> shutdownPreview.Some? && shutdownPreview.value.binding == binding
    {
      hide BindingOf, HasUncertain;
      if !BindingInRange(binding) || !acknowledged { return RefuseConfirm(ErrInvalid); }
      if purpose.Update? && !EmptyBinding(binding) { return RefuseConfirm(ErrInvalid); }
      if binding.preview in shutdownTickets {
        var t := shutdownTickets[binding.preview];
        if t.binding != binding || t.purpose != purpose { return RefuseConfirm(ErrChanged); }
        return Await;
      }
      if shutdownPreview.None? || shutdownPreview.value.binding != binding { return RefuseConfirm(ErrChanged); }
      var current := CurrentBinding(binding.preview);
      if !BindingInRange(current) { return RefuseConfirm(ErrInvalid); }
      if !Confirms(binding, current) { return RefuseConfirm(ErrChanged); }
      if gate.exhausted || gate.revision == MAX_REVISION { return RefuseConfirm(ErrLimit); }
      var doubtful := Uncertain();
      if shutdownPreparing || shutdownCommitted || lifecycleStarting || lifecyclePending > 0 || doubtful { return RefuseConfirm(ErrBusy); }
      if purpose.Update? {
        if !lifecycleBound { return RefuseConfirm(ErrUnsupported); }
        if gate.disabled { return RefuseConfirm(ErrBusy); }
        if updateDeferral.Some? && updateDeferral.value.target != purpose.target { return RefuseConfirm(ErrChanged); }
      }
      var rows := shutdownPreview.value.runs;
      while rows != {}
        invariant rows <= shutdownPreview.value.runs && forall x :: x in shutdownPreview.value.runs - rows ==> x.run in runs
        decreases |rows|
      {
        var x :| x in rows;
        if x.run !in runs { return RefuseConfirm(ErrChanged); }
        rows := rows - {x};
      }
      if |shutdownTickets| >= MAX_LAUNCH_REQUESTS { return RefuseConfirm(ErrLimit); }
      return AdmitConfirm;
    }

    method ConfirmShutdown(binding: Binding, acknowledged: bool, purpose: Purpose) returns (reply: ConfirmAdmission)
      modifies `shutdownTickets, `shutdownPreparing, `lifecyclePending, `gate
      ensures reply == ConfirmReply(old(State()), binding, acknowledged, purpose)
      ensures gate == if reply.AdmitConfirm? then old(gate).Bump() else old(gate)
      ensures shutdownPreview.Some? || !reply.AdmitConfirm?
      ensures Life() == if reply.AdmitConfirm? then ShutdownSteps.ConfirmShutdown(old(Life()), purpose, old(gate).Bump().revision)
                        else old(Life())
    {
      hide ConfirmReply;
      reply := CheckConfirmation(binding, acknowledged, purpose);
      if reply.AdmitConfirm? {
        var children := Ids(shutdownPreview.value.runs);
        gate := gate.Bump();
        shutdownTickets := shutdownTickets[binding.preview :=
          ShutdownTicket(binding, purpose, children, ShutdownPending, 0, None, false, map[], None, Revalidating(gate.revision))];
        shutdownPreparing := true;
        lifecyclePending := lifecyclePending + 1;
      }
    }

    /** The second look, after the children were revalidated outside the lock. */
    method CheckReservation(p: PreviewId) returns (changed: bool)
      requires p in shutdownTickets && shutdownTickets[p].phase.Revalidating?
      modifies `shutdownTickets
      ensures changed == (gate.revision != old(shutdownTickets)[p].phase.reservation || HasUncertain(old(State())))
      ensures Life() == CheckShutdown(old(Life()), p, gate.revision, HasUncertain(old(State())))
    {
      hide HasUncertain;
      var doubtful := Uncertain();
      changed := gate.revision != shutdownTickets[p].phase.reservation || doubtful;
      shutdownTickets := shutdownTickets[p := shutdownTickets[p].(phase := if changed then Refusing else Checked)];
    }

    /** The reservation is durable. No terminal was closed before this section. */
    method CommitShutdown(p: PreviewId)
      requires p in shutdownTickets && shutdownTickets[p].phase.Checked?
      modifies `shutdownTickets, `shutdownCommitted, `decided, `gate
      ensures gate == old(gate).(disabled := true).Bump()
      ensures Life() == ShutdownSteps.CommitShutdown(epoch, old(Life()), p)
    {
      shutdownCommitted := true;
      gate := gate.(disabled := true);
      gate := gate.Bump();
      decided := decided + multiset{(epoch, p)};
      shutdownTickets := shutdownTickets[p := shutdownTickets[p].(committed := true, phase := Closing(shutdownTickets[p].children, 0, false))];
    }

    /** Doubt and a committed decision both freeze the daemon. */
    method Freeze(outcome: ShutdownOutcome, committed: bool)
      modifies `lifecycleUncertain, `shutdownCommitted, `gate
      ensures gate == old(gate).(disabled := old(gate).disabled || outcome == ShutdownUnknown || committed)
      ensures Life() == old(Life()).(uncertain := old(lifecycleUncertain) || outcome == ShutdownUnknown,
                                     committed := old(shutdownCommitted) || committed)
    {
      if outcome == ShutdownUnknown {
        lifecycleUncertain := true;
        gate := gate.(disabled := true);
      }
      if committed {
        shutdownCommitted := true;
        gate := gate.(disabled := true);
      }
    }

    /** Joins the coordinator; a durable handoff retires the deferral first. */
    method JoinDecision(p: PreviewId, t: ShutdownTicket)
      modifies `shutdownTickets, `updateDeferral, `lifecyclePending, `gate
      ensures gate == old(gate).Bump()
      ensures Life() == old(Life()).(shutdowns := old(shutdownTickets)[p := t], pending := old(lifecyclePending) - 1,
                                     deferral := if t.purpose.Update? && t.error.None? && t.outcome == Draining then None else old(updateDeferral))
    {
      if t.purpose.Update? && t.error.None? && t.outcome == Draining { updateDeferral := None; }
      lifecyclePending := lifecyclePending - 1;
      gate := gate.Bump();
      shutdownTickets := shutdownTickets[p := t];
    }

    /** The last section of every decision. */
    method FinishShutdown(p: PreviewId, outcome: ShutdownOutcome, closedTerminals: nat, error: Option<Failure>, committed: bool)
      requires p in shutdownTickets
      modifies `shutdownTickets, `shutdownPreparing, `shutdownCommitted, `lifecycleUncertain, `lifecyclePending, `updateDeferral, `gate
      ensures gate == old(gate).(disabled := old(gate).disabled || outcome == ShutdownUnknown || committed).Bump()
      ensures Life() == ShutdownSteps.FinishShutdown(old(Life()), p, outcome, closedTerminals, error, committed)
    {
      var t := shutdownTickets[p].(outcome := outcome, closedTerminals := closedTerminals, error := error);
      shutdownPreparing := false;
      Freeze(outcome, committed);
      JoinDecision(p, t.(phase := Settled));
    }

    /** Counts the terminals that closed, one joined goroutine after another, and
        settles the decision with the journal's answer. */
    method SettleShutdown(p: PreviewId, closed: nat, failed: bool, saved: bool)
      requires p in shutdownTickets && shutdownTickets[p].phase == Closing({}, closed, failed)
      modifies `shutdownTickets, `shutdownPreparing, `shutdownCommitted, `lifecycleUncertain, `lifecyclePending, `updateDeferral, `gate
      ensures gate == old(gate).(disabled := true).Bump()
      ensures Life() == ShutdownSteps.SettleShutdown(old(Life()), p, saved)
      ensures p in shutdownTickets
              && var t := shutdownTickets[p];
              t.phase == Settled && t.closedTerminals == closed
              && (t.outcome == Draining <==> saved && !failed) && (t.error.None? <==> saved && !failed)
              && (saved && !failed ==> lifecycleUncertain == old(lifecycleUncertain))
              && (!saved || failed ==> t.outcome == ShutdownUnknown && t.error == Some(ErrUnknown) && lifecycleUncertain)
    {
      shutdownTickets := shutdownTickets[p := shutdownTickets[p].(saved := Some(saved))];
      if !saved || failed {
        FinishShutdown(p, ShutdownUnknown, closed, Some(ErrUnknown), true);
      } else {
        FinishShutdown(p, Draining, closed, None, true);
      }
    }

    // ---- Start-up and clean publication -------------------------------------------

    method DisableLaunches()
      modifies `gate
      ensures gate == if old(gate).disabled then old(gate) else old(gate).(disabled := true).Bump()
    {
      if !gate.disabled {
        gate := gate.(disabled := true);
        gate := gate.Bump();
      }
    }

    /** The check under the lock, before the marker is recorded outside it. */
    method CheckClean() returns (error: Option<Failure>)
      modifies `cleanChecked
      ensures error == CleanReply(old(State()))
      ensures Life() == old(Life()).(cleanChecked := old(cleanChecked) || error.None?)
    {
      hide HasUncertain;
      if !lifecycleBound { return Some(ErrUnsupported); }
      if !gate.disabled || pending + active + controlsPending + lifecyclePending != 0 { return Some(ErrBusy); }
      var doubtful := Uncertain();
      if doubtful { return Some(ErrUnknown); }
      cleanChecked := true;
      error := None;
    }

    method BeginInitialize() returns (ok: bool)
      modifies `lifecycleStarting, `gate
      ensures ok == MayInitialize(old(State()))
      ensures gate == if ok then old(gate).Bump() else old(gate)
      ensures Life() == old(Life()).(starting := old(lifecycleStarting) || ok)
    {
      if lifecycleStarting || lifecycleBound || gate.disabled || tickets != map[] || resumes != map[] || shutdownPreparing || shutdownCommitted {
        return false;
      }
      lifecycleStarting := true;
      gate := gate.Bump();
      ok := true;
    }

    method FinishInitialize(result: Persisted, restored: Option<Deferral>)
      modifies `lifecycleStarting, `lifecycleBound, `lifecycleUncertain, `updateDeferral, `gate
      ensures gate == old(gate).(disabled := old(gate).disabled || result != PersistedOk).Bump()
      ensures Life() == LifecycleSteps.FinishInitialize(old(Life()), result, restored)
    {
      lifecycleStarting := false;
      if result != PersistedOk {
        gate := gate.(disabled := true);
        if result == PersistUncertain { lifecycleUncertain := true; }
      } else {
        updateDeferral := restored;
        lifecycleBound := true;
      }
      gate := gate.Bump();
    }

    // ---- Update -------------------------------------------------------------------

    method IsQuiescent() returns (yes: bool)
      ensures yes == Quiescent(State())
    {
      hide BindingOf, HasUncertain;
      var b := CurrentBinding(0);
      var doubtful := Uncertain();
      yes := b.totalRuns == 0 && b.pendingLaunches == 0 && b.pendingControls == 0 && b.pendingReconciliations == 0
             && !lifecycleStarting && lifecyclePending == 0 && !doubtful
             && !gate.disabled && !shutdownPreparing && !shutdownCommitted && !gate.Spent();
    }

    method MetadataIsBusy() returns (busy: bool)
      ensures busy == MetadataBusy(State())
    {
      busy := gate.disabled || lifecycleStarting || lifecyclePending != 0 || shutdownPreparing || shutdownCommitted || lifecycleUncertain;
    }

    method OfferEmptyPreview(id: PreviewId)
      modifies `shutdownPreview
      ensures Life() == LifecycleSteps.OfferEmptyPreview(old(State()), id)
    {
      hide BindingOf;
      var binding := CurrentBinding(id);
      shutdownPreview := Some(Preview(binding, {}));
    }

    method CheckAttempt() returns (reply: AttemptAdmission)
      ensures reply == AttemptReply(State())
    {
      hide Quiescent;
      if !lifecycleBound { return RefuseAttempt(ErrUnsupported); }
      if gate.exhausted || gate.revision == MAX_REVISION { return RefuseAttempt(ErrLimit); }
      var busy := MetadataIsBusy();
      if busy { return RefuseAttempt(ErrBusy); }
      if updateDeferral.None? {
        var quiescent := IsQuiescent();
        if quiescent { return EmptyPreview; }
      }
      return AdmitAttempt;
    }

    /** Starts the coordinator that writes a deferral outside the lock. */
    method BeginUpdate(ref: Ref, candidate: Deferral, attempt: Option<PreviewId>)
      modifies `updates, `lifecyclePending, `gate
      ensures gate == old(gate).Bump()
      ensures Life() == LifecycleSteps.BeginUpdate(old(Life()), ref, candidate, attempt)
    {
      updates := updates[ref := UpdateTicket(candidate, attempt, false)];
      lifecyclePending := lifecyclePending + 1;
      gate := gate.Bump();
    }

    /** The first section of an attempt: refuse, offer an empty preview at once, or
        record the deferral, keeping the start and notice of a continuous one. */
    method AttemptUpdate(target: TargetId, now: int, id: PreviewId, ref: Ref) returns (reply: AttemptAdmission)
      modifies `shutdownPreview, `updates, `lifecyclePending, `gate
      ensures reply == AttemptReply(old(State()))
      ensures gate == if reply.AdmitAttempt? then old(gate).Bump() else old(gate)
      ensures Life() == match reply
                        case RefuseAttempt(_) => old(Life())
                        case EmptyPreview => LifecycleSteps.OfferEmptyPreview(old(State()), id)
                        case AdmitAttempt => LifecycleSteps.BeginUpdate(old(Life()), ref, Candidate(old(Life()), target, now), Some(id))
    {
      hide AttemptReply, BindingOf;
      reply := CheckAttempt();
      if reply.EmptyPreview? {
        OfferEmptyPreview(id);
      } else if reply.AdmitAttempt? {
        var candidate := Deferral(target, now, false);
        if updateDeferral.Some? { candidate := updateDeferral.value.(target := target); }
        if !candidate.notified && candidate.Overdue(now) { candidate := candidate.(notified := true); }
        BeginUpdate(ref, candidate, Some(id));
      }
    }

    /** Caches what was persisted, or freezes the daemon in doubt. */
    method FinishUpdate(ref: Ref, result: Persisted)
      requires ref in updates
      modifies `updates, `updateDeferral, `lifecycleUncertain, `lifecyclePending, `gate
      ensures gate == old(gate).(disabled := old(gate).disabled || result == PersistUncertain).Bump()
      ensures Life() == LifecycleSteps.FinishUpdate(old(Life()), ref, result)
    {
      var t := updates[ref];
      if result == PersistedOk {
        updateDeferral := Some(t.candidate);
      } else if result == PersistUncertain {
        lifecycleUncertain := true;
        gate := gate.(disabled := true);
      }
      lifecyclePending := lifecyclePending - 1;
      gate := gate.Bump();
      updates := updates[ref := t.(settled := true)];
    }

    /** The last section of an attempt: finish and, if quiescent, offer the preview
        under the same lock. */
    method FinishAttempt(ref: Ref, id: PreviewId, result: Persisted)
      requires ref in updates && !updates[ref].settled && updates[ref].attempt == Some(id)
      modifies `updates, `updateDeferral, `lifecycleUncertain, `lifecyclePending, `shutdownPreview, `gate
      ensures gate == LifecycleGate(old(gate), DoFinishUpdate(ref, result))
      ensures Life() == LifecycleLifecycle(old(State()), DoFinishUpdate(ref, result))
    {
      hide BindingOf, Quiescent, LifecycleSteps.FinishUpdate;
      ghost var before := State();
      FinishUpdate(ref, result);
      ghost var settled := LifecycleSteps.FinishUpdate(before.life, ref, result);
      assert State() == before.(life := settled, gate := LifecycleGate(before.gate, DoFinishUpdate(ref, result)));
      if result == PersistedOk {
        var quiescent := IsQuiescent();
        if quiescent { OfferEmptyPreview(id); }
      }
    }

    method PublishDueUpdateNotice(now: int, ref: Ref) returns (reply: NoticeAdmission)
      modifies `updates, `lifecyclePending, `gate
      ensures reply == NoticeReply(old(State()), now)
      ensures gate == if reply.AdmitNotice? then old(gate).Bump() else old(gate)
      ensures Life() == if reply.AdmitNotice? then LifecycleSteps.BeginUpdate(old(Life()), ref, old(updateDeferral).value.Notice(now), None)
                        else old(Life())
    {
      if !lifecycleBound { return RefuseNotice(ErrUnsupported); }
      if updateDeferral.None? || updateDeferral.value.notified || !updateDeferral.value.Overdue(now) { return NothingDue; }
      if gate.exhausted || gate.revision == MAX_REVISION { return RefuseNotice(ErrLimit); }
      var busy := MetadataIsBusy();
      if busy { return RefuseNotice(ErrBusy); }
      BeginUpdate(ref, updateDeferral.value.(notified := true), None);
      return AdmitNotice;
    }
  }
}
