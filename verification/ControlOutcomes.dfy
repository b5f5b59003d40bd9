/** What a control answers, for every answer of the native effect and of the journal. */
module ControlOutcomes {
  import opened Options
  import opened RuntimeState
  import opened ControlSteps
  import opened ControlInvariants
  import P = ControlProofs

  /** A byte count that a receipt with this outcome may carry. */
  predicate Counts(intent: Intent, outcome: Outcome, written: int)
  {
    0 <= written <= intent.inputBytes
    && (outcome == Rejected ==> written == 0)
    && (outcome == Delivered && intent.kind == Input ==> written == intent.inputBytes)
  }

  /** The effect answered this outcome, without error and with a credible byte count. */
  predicate Answered(t: ControlTicket, outcome: Outcome)
  {
    t.applied.Some? && !t.applied.value.failed && t.applied.value.outcome == outcome
    && Counts(t.intent, outcome, t.applied.value.written)
  }

  /** The answer itself, or doubt when the effect failed or is not credible. */
  predicate EvidenceOf(t: ControlTicket, e: ControlEffect)
  {
    if t.applied.None? then e == ControlEffect(Unknown, 0, true)
    else
      var a := t.applied.value;
      e.failed == a.failed && e.outcome != Pending
      && (e.outcome == Delivered <==> Answered(t, Delivered)) && (e.outcome == Rejected <==> Answered(t, Rejected))
      && e.written == if 0 <= a.written <= t.intent.inputBytes && (e.outcome != Unknown || a.failed || a.outcome == Unknown || a.outcome == Pending)
                      then a.written else 0
  }

  /** The receipt of a control that was not dropped. */
  predicate Concludes(t: ControlTicket, r: Receipt)
  {
    r.intent == t.intent && r.outcome != Pending
    && (r.outcome == Delivered <==> Answered(t, Delivered) && t.saved)
    && (r.outcome == Rejected <==> Answered(t, Rejected) && t.saved)
    && (r.outcome != Unknown ==> t.applied.Some? && r.written == t.applied.value.written)
    && (t.applied.None? ==> r.written == 0)
  }

  predicate ErrorFits(outcome: Outcome, error: Option<Failure>)
  {
    (error.None? <==> outcome == Delivered)
    && (outcome == Rejected ==> error == Some(ErrRejected)) && (outcome == Unknown ==> error == Some(ErrUnknown))
  }

  predicate Kept(c: Controls, ref: Ref)
    requires ref in c.tickets
  {
    var t := c.tickets[ref];
    t.run in c.ledgers && t.intent.id in c.ledgers[t.run].tickets && c.ledgers[t.run].tickets[t.intent.id] == ref
  }

  /** An effect follows a committed intent; without one the phase shows the answer. */
  predicate ReservedFirst(t: ControlTicket)
  {
    (t.applied.Some? ==> t.reserved == Some(CommittedIntent))
    && match t.phase
       case Validating => t.reserved.None?
       case Held => t.reserved.None?
       case RollingBack => t.reserved == Some(DefinitelyNot)
       case Rejecting => t.reserved.None? || t.reserved == Some(DefinitelyNot)
       case Committed => t.reserved == Some(CommittedIntent)
       case Completing(_) => t.reserved == Some(CommittedIntent) || t.reserved == Some(MaybeCommitted)
       case Finishing(_) => t.reserved == Some(CommittedIntent) || t.reserved == Some(MaybeCommitted)
       case Done => true
  }

  /** A ticket that was dropped had definitely no durable intent, and so no effect;
      one whose intent is or may be durable is never dropped. */
  predicate ControlAnswered(c: Controls, ref: Ref)
    requires ref in c.tickets
  {
    var t := c.tickets[ref];
    ReservedFirst(t)
    && match t.phase
       case Completing(e) => t.error.None? && !t.saved && EvidenceOf(t, e)
       case Finishing(final) => t.error.None? && Concludes(t, final)
       case Done =>
         if Kept(c, ref) then
           Concludes(t, t.receipt) && ErrorFits(t.receipt.outcome, t.error)
           && (t.reserved == Some(CommittedIntent) || t.reserved == Some(MaybeCommitted))
         else
           t.receipt.outcome == Rejected && t.error.Some? && t.applied.None? && !t.saved
           && (t.reserved.None? || t.reserved == Some(DefinitelyNot))
       case _ => t.error.None? && !t.saved && t.applied.None?
  }

  ghost predicate AllAnswered(c: Controls) { forall ref :: ref in c.tickets ==> ControlAnswered(c, ref) }

  lemma {:induction false} TicketAnswers(s: State, step: ControlStep)
    requires ControlEnabled(s, step) && !step.DoAdmitControl? && P.Mine(s.ctl, step.ref)
    requires ControlAnswered(s.ctl, step.ref)
    ensures step.ref in ControlControls(s, step).tickets && ControlAnswered(ControlControls(s, step), step.ref)
  {
    hide ApplyControl, RecordControl, FinishControl;
    match step
    case DoApplyControl(ref, effect) => EffectAnswers(s.ctl, ref, effect);
    case DoRecordControl(ref, saved) => RecordAnswers(s.ctl, ref, saved);
    case DoFinishControl(ref) => FinishAnswers(s.ctl, ref);
    case _ =>
  }

  lemma {:induction false} FinishAnswers(c: Controls, ref: Ref)
    requires Owned(c, ref) && c.tickets[ref].phase.Finishing? && ControlEntry(c, ref) && ControlAnswered(c, ref)
    ensures ref in FinishControl(c, ref).tickets && ControlAnswered(FinishControl(c, ref), ref)
  {
  }

  lemma {:induction false} EffectAnswers(c: Controls, ref: Ref, effect: ControlEffect)
    requires ControlIn(c, ref, Committed) && ControlEntry(c, ref) && ControlAnswered(c, ref)
    ensures ref in ApplyControl(c, ref, effect).tickets && ControlAnswered(ApplyControl(c, ref, effect), ref)
  {
  }

  lemma {:induction false} RecordAnswers(c: Controls, ref: Ref, saved: bool)
    requires P.Mine(c, ref) && c.tickets[ref].phase.Completing? && ControlAnswered(c, ref)
    ensures ref in RecordControl(c, ref, saved).tickets && ControlAnswered(RecordControl(c, ref, saved), ref)
  {
  }

  lemma {:induction false} OthersAnswer(c: Controls, c': Controls, ref: Ref, q: Ref)
    requires P.ControlMove(c, c', ref) && ControlEntry(c, ref) && q in c.tickets && q != ref && ControlAnswered(c, q)
    ensures q in c'.tickets && ControlAnswered(c', q)
  {
    hide Concludes, EvidenceOf, ErrorFits;
    assert Kept(c', q) <==> Kept(c, q);
  }

  lemma {:induction false} AdmissionAnswers(c: Controls, run: RunId, intent: Intent, fingerprint: nat, ref: Ref)
    requires AllAnswered(c) && ref !in c.tickets
    requires run in c.ledgers && intent.id in c.ledgers[run].tickets ==> c.ledgers[run].tickets[intent.id] !in c.tickets
    ensures AllAnswered(AdmitControl(c, run, intent, fingerprint, ref))
  {
    var c' := AdmitControl(c, run, intent, fingerprint, ref);
    hide Concludes, EvidenceOf, ErrorFits;
    forall q | q in c.tickets ensures ControlAnswered(c', q) {
      assert ControlAnswered(c, q);
      assert Kept(c', q) <==> Kept(c, q);
    }
  }

  lemma {:induction false} ControlKeepsAnswers(s: State, step: ControlStep)
    requires CtlInv(s.epoch, s.own, s.ctl) && AllAnswered(s.ctl) && ControlEnabled(s, step)
    ensures AllAnswered(ControlControls(s, step))
  {
    var c, ref := s.ctl, step.ref;
    if step.DoAdmitControl? {
      AdmissionAnswers(c, step.run, step.intent, step.fingerprint, ref);
    } else {
      P.MineOf(s.epoch, s.own, c, ref);
      hide CtlInv, ControlAnswered, ControlControls, ControlEntry;
      TicketAnswers(s, step);
      P.TicketMoves(s, step);
      var c' := ControlControls(s, step);
      forall q | q in c'.tickets && q != ref ensures ControlAnswered(c', q) { OthersAnswer(c, c', ref, q); }
    }
  }
}
