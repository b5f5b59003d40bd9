/** The per-run receipt ledger, and the lock sections and port calls of a control. */
module ControlSteps {
  import opened Options
  import opened RuntimeState

  // ---- Ledger -------------------------------------------------------------

  /** Byte counts and outcomes a receipt may carry. */
  predicate ValidReceipt(r: Receipt)
  {
    0 <= r.written <= r.intent.inputBytes
    && match r.outcome
       case Pending => r.written == 0
       case Rejected => r.written == 0
       case Delivered => r.intent.kind == Input ==> r.written == r.intent.inputBytes
       case Unknown => true
  }

  const EmptyLedger := Ledger(map[], 0)

  datatype LedgerReply = LedgerOk(ledger: Ledger, receipt: Receipt) | LedgerRefused(error: Failure)

  function Reserve(l: Ledger, intent: Intent, fingerprint: nat): LedgerReply
  {
    if intent.id in l.entries then
      var e := l.entries[intent.id];
      if e.receipt.intent != intent || e.fingerprint != fingerprint then LedgerRefused(ErrChanged)
      else LedgerOk(l, e.receipt)
    else if |l.entries| >= MAX_CONTROL_RECEIPTS
            || (intent.kind != Stop && l.nonLifecycle >= MAX_CONTROL_RECEIPTS - RESERVED_LIFECYCLE_RECEIPTS) then LedgerRefused(ErrLimit)
    else
      var receipt := Receipt(intent, Pending, 0);
      LedgerOk(Ledger(l.entries[intent.id := LedgerEntry(receipt, fingerprint)],
                      if intent.kind != Stop then l.nonLifecycle + 1 else l.nonLifecycle), receipt)
  }

  /** Records a terminal outcome once; a recorded one is never rewritten. */
  function Record(l: Ledger, id: RequestId, outcome: Outcome, written: int): LedgerReply
  {
    if id !in l.entries then LedgerRefused(ErrNotFound)
    else
      var e := l.entries[id];
      var candidate := e.receipt.(outcome := outcome, written := written);
      if outcome == Pending || !ValidReceipt(candidate) then LedgerRefused(ErrInvalid)
      else if e.receipt.outcome != Pending then
        if e.receipt == candidate then LedgerOk(l, candidate) else LedgerRefused(ErrChanged)
      else LedgerOk(l.(entries := l.entries[id := e.(receipt := candidate)]), candidate)
  }

  /** Forgets an intent whose durable write definitely did not commit. */
  function Abandon(l: Ledger, id: RequestId): LedgerReply
  {
    if id !in l.entries then LedgerRefused(ErrNotFound)
    else if l.entries[id].receipt.outcome != Pending then LedgerRefused(ErrChanged)
    else LedgerOk(Ledger(l.entries - {id},
                         if l.entries[id].receipt.intent.kind != Stop then l.nonLifecycle - 1 else l.nonLifecycle),
                  l.entries[id].receipt)
  }

  // ---- Control ------------------------------------------------------------

  datatype ControlAdmission = RefuseControl(error: Failure) | Inspect(ref: Ref) | AdmitOne

  predicate BusyRun(c: Controls, run: RunId) { run in c.ledgers && c.ledgers[run].busy }

  function AdmitControlReply(s: State, run: RunId, intent: Intent, fingerprint: nat): ControlAdmission
  {
    var c := s.ctl;
    if run !in s.own.runs then RefuseControl(ErrNotFound)
    else if run in c.ledgers && intent.id in c.ledgers[run].tickets && c.ledgers[run].tickets[intent.id] in c.tickets then
      var ref := c.ledgers[run].tickets[intent.id];
      if c.tickets[ref].intent != intent || c.tickets[ref].fingerprint != fingerprint then RefuseControl(ErrChanged)
      else Inspect(ref)
    else if s.gate.Spent() then RefuseControl(ErrLimit)
    else if s.life.preparing || ((s.life.committed || s.life.uncertain) && intent.kind != Stop) then RefuseControl(ErrBusy)
    else if s.own.runs[run].snapshot.state != Live then RefuseControl(ErrChanged)
    else if intent.kind == Input && !s.own.runs[run].published then RefuseControl(ErrRejected)
    else if c.pending >= MAX_CONTROL_COORDINATORS || BusyRun(c, run) then RefuseControl(ErrBusy)
    else AdmitOne
  }

  function ControlsOf(c: Controls, run: RunId): RunControls
  {
    if run in c.ledgers then c.ledgers[run] else RunControls(EmptyLedger, map[], false)
  }

  function AdmitControl(c: Controls, run: RunId, intent: Intent, fingerprint: nat, ref: Ref): Controls
  {
    var own := ControlsOf(c, run);
    var t := ControlTicket(run, intent, fingerprint, Receipt(intent, Pending, 0), None, None, None, false, Validating);
    c.(ledgers := c.ledgers[run := own.(tickets := own.tickets[intent.id := ref], busy := true)],
       tickets := c.tickets[ref := t], pending := c.pending + 1)
  }

  predicate Owned(c: Controls, ref: Ref) { ref in c.tickets && c.tickets[ref].run in c.ledgers }

  function SetControl(c: Controls, ref: Ref, t: ControlTicket): Controls { c.(tickets := c.tickets[ref := t]) }

  function SetLedger(c: Controls, run: RunId, ledger: Ledger): Controls
    requires run in c.ledgers
  {
    c.(ledgers := c.ledgers[run := c.ledgers[run].(ledger := ledger)])
  }

  /** The finishing section: publishes the receipt and frees the run. */
  function Finish(c: Controls, ref: Ref, receipt: Receipt, error: Option<Failure>, drop: bool): Controls
    requires Owned(c, ref)
  {
    var t := c.tickets[ref];
    var own := c.ledgers[t.run];
    var own' := own.(tickets := if drop then own.tickets - {t.intent.id} else own.tickets, busy := false);
    SetControl(c, ref, t.(receipt := receipt, error := error, phase := Done))
      .(ledgers := c.ledgers[t.run := own'], pending := c.pending - 1)
  }

  /** A rejected ticket is dropped and may be retried. */
  function RejectControl(c: Controls, ref: Ref, error: Failure): Controls
    requires Owned(c, ref)
  {
    Finish(c, ref, c.tickets[ref].receipt.(outcome := Rejected), Some(error), true)
  }

  /** The run must still be live; then its ledger takes the intent. */
  function HoldIntent(c: Controls, ref: Ref, live: bool): Controls
    requires Owned(c, ref)
  {
    var t := c.tickets[ref];
    var reply := Reserve(c.ledgers[t.run].ledger, t.intent, t.fingerprint);
    if live && reply.LedgerOk? then
      SetLedger(SetControl(c, ref, t.(receipt := reply.receipt, phase := Held)), t.run, reply.ledger)
    else SetControl(c, ref, t.(phase := Rejecting))
  }

  /** Any doubt about the durable intent is kept as an unknown effect. */
  function ReserveIntent(c: Controls, ref: Ref, answer: Durability): Controls
    requires ref in c.tickets
  {
    var t := c.tickets[ref];
    var phase := match answer
      case DefinitelyNot => RollingBack
      case MaybeCommitted => Completing(ControlEffect(Unknown, 0, true))
      case CommittedIntent => Committed;
    SetControl(c, ref, t.(reserved := Some(answer), phase := phase))
      .(intents := if answer == CommittedIntent then c.intents + multiset{(t.run, t.intent.id)} else c.intents)
  }

  function AbandonIntent(c: Controls, ref: Ref): Controls
    requires Owned(c, ref)
  {
    var t := c.tickets[ref];
    var reply := Abandon(c.ledgers[t.run].ledger, t.intent.id);
    if reply.LedgerOk? then SetLedger(SetControl(c, ref, t.(phase := Rejecting)), t.run, reply.ledger)
    else SetControl(c, ref, t.(phase := Finishing(t.receipt.(outcome := Unknown))))
  }

  /** The evidence kept for what the native effect answered. */
  function Evidence(receipt: Receipt, answer: ControlEffect): ControlEffect
  {
    var outcome := if answer.failed || answer.outcome == Pending then Unknown else answer.outcome;
    if ValidReceipt(receipt.(outcome := outcome, written := answer.written)) then ControlEffect(outcome, answer.written, answer.failed)
    else ControlEffect(Unknown, 0, answer.failed)
  }

  function ApplyControl(c: Controls, ref: Ref, answer: ControlEffect): Controls
    requires ref in c.tickets
  {
    var t := c.tickets[ref];
    SetControl(c, ref, t.(applied := Some(answer), phase := Completing(Evidence(t.receipt, answer))))
      .(applied := c.applied + multiset{(t.run, t.intent.id)})
  }

  /** The budget ran out after the intent committed: no effect, outcome unknown. */
  function SkipControl(c: Controls, ref: Ref): Controls
    requires ref in c.tickets
  {
    SetControl(c, ref, c.tickets[ref].(phase := Completing(ControlEffect(Unknown, 0, true))))
  }

  /** The receipt that goes to the ledger once the journal answered. */
  function ResultOf(t: ControlTicket, e: ControlEffect, saved: bool): Receipt
  {
    var first := t.receipt.(outcome := e.outcome, written := e.written);
    var valid := if ValidReceipt(first) then first else t.receipt.(outcome := Unknown, written := 0);
    valid.(outcome := if saved && !e.failed then valid.outcome else Unknown)
  }

  function RecordControl(c: Controls, ref: Ref, saved: bool): Controls
    requires Owned(c, ref) && c.tickets[ref].phase.Completing?
  {
    var t := c.tickets[ref];
    var result := ResultOf(t, t.phase.effect, saved);
    var reply := Record(c.ledgers[t.run].ledger, t.intent.id, result.outcome, result.written);
    if reply.LedgerOk? then
      SetLedger(SetControl(c, ref, t.(saved := saved, phase := Finishing(reply.receipt))), t.run, reply.ledger)
    else SetControl(c, ref, t.(saved := saved, phase := Finishing(result.(outcome := Unknown))))
  }

  function OutcomeError(outcome: Outcome): Option<Failure>
  {
    match outcome
    case Delivered => None
    case Rejected => Some(ErrRejected)
    case _ => Some(ErrUnknown)
  }

  function FinishControl(c: Controls, ref: Ref): Controls
    requires Owned(c, ref) && c.tickets[ref].phase.Finishing?
  {
    var final := c.tickets[ref].phase.final;
    Finish(c, ref, final, OutcomeError(final.outcome), false)
  }

  // ---- Steps --------------------------------------------------------------

  datatype ControlStep =
    | DoAdmitControl(run: RunId, intent: Intent, fingerprint: nat, ref: Ref)
    | DoRejectControl(ref: Ref, error: Failure)
    | DoHoldIntent(ref: Ref)
    | DoReserveIntent(ref: Ref, answer: Durability)
    | DoAbandonIntent(ref: Ref)
    | DoApplyControl(ref: Ref, effect: ControlEffect)
    | DoSkipControl(ref: Ref)
    | DoRecordControl(ref: Ref, saved: bool)
    | DoFinishControl(ref: Ref)

  predicate ControlIn(c: Controls, ref: Ref, phase: ControlPhase) { Owned(c, ref) && c.tickets[ref].phase == phase }

  predicate LiveRun(o: Ownership, run: RunId) { run in o.runs && o.runs[run].snapshot.state == Live }

  predicate ControlEnabled(s: State, step: ControlStep)
  {
    match step
    case DoAdmitControl(run, intent, fingerprint, ref) =>
      ref !in s.ctl.tickets && AdmitControlReply(s, run, intent, fingerprint) == AdmitOne
    case DoRejectControl(ref, _) => ControlIn(s.ctl, ref, Validating) || ControlIn(s.ctl, ref, Rejecting)
    case DoHoldIntent(ref) => ControlIn(s.ctl, ref, Validating)
    case DoReserveIntent(ref, _) => ControlIn(s.ctl, ref, Held)
    case DoAbandonIntent(ref) => ControlIn(s.ctl, ref, RollingBack)
    case DoApplyControl(ref, _) => ControlIn(s.ctl, ref, Committed)
    case DoSkipControl(ref) => ControlIn(s.ctl, ref, Committed)
    case DoRecordControl(ref, _) => Owned(s.ctl, ref) && s.ctl.tickets[ref].phase.Completing?
    case DoFinishControl(ref) => Owned(s.ctl, ref) && s.ctl.tickets[ref].phase.Finishing?
  }

  /** Admission and the finishing section signal a change; the ledger sections
      and the port calls in between do not. */
  predicate ControlSignals(step: ControlStep)
  {
    step.DoAdmitControl? || step.DoRejectControl? || step.DoFinishControl?
  }

  function ControlControls(s: State, step: ControlStep): Controls
    requires ControlEnabled(s, step)
  {
    match step
    case DoAdmitControl(run, intent, fingerprint, ref) => AdmitControl(s.ctl, run, intent, fingerprint, ref)
    case DoRejectControl(ref, error) => RejectControl(s.ctl, ref, error)
    case DoHoldIntent(ref) => HoldIntent(s.ctl, ref, LiveRun(s.own, s.ctl.tickets[ref].run))
    case DoReserveIntent(ref, answer) => ReserveIntent(s.ctl, ref, answer)
    case DoAbandonIntent(ref) => AbandonIntent(s.ctl, ref)
    case DoApplyControl(ref, effect) => ApplyControl(s.ctl, ref, effect)
    case DoSkipControl(ref) => SkipControl(s.ctl, ref)
    case DoRecordControl(ref, saved) => RecordControl(s.ctl, ref, saved)
    case DoFinishControl(ref) => FinishControl(s.ctl, ref)
  }

  function ControlApply(s: State, step: ControlStep): State
    requires ControlEnabled(s, step)
  {
    s.(ctl := ControlControls(s, step), gate := if ControlSignals(step) then s.gate.Bump() else s.gate)
  }
}
