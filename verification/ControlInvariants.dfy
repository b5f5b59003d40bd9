/** What every reachable control state satisfies, over the runs it belongs to. */
module ControlInvariants {
  import opened Options
  import opened RuntimeState
  import opened ControlSteps
  import opened Counting

  predicate InFlight(t: ControlTicket) { t.phase != Done }

  /** Phases in which the ledger holds the still pending intent. */
  predicate HoldsIntent(t: ControlTicket)
  {
    t.phase.Held? || t.phase.RollingBack? || t.phase.Committed? || t.phase.Completing?
  }

  /** The native effect answered, without error, that it was delivered. */
  predicate DeliveredEvidence(t: ControlTicket)
  {
    t.applied.Some? && !t.applied.value.failed && t.applied.value.outcome == Delivered
  }

  predicate FinalReceipt(t: ControlTicket, r: Receipt)
  {
    r.intent == t.intent && ValidReceipt(r) && r.outcome != Pending
    && (r.outcome == Delivered ==> DeliveredEvidence(t) && t.saved)
  }

  predicate ControlShape(t: ControlTicket)
  {
    match t.phase
    case Completing(e) => t.receipt == Receipt(t.intent, Pending, 0) && e.outcome != Pending
                          && (e.outcome == Delivered ==> DeliveredEvidence(t) && !e.failed)
    case Finishing(final) => FinalReceipt(t, final)
    case Done => FinalReceipt(t, t.receipt)
    case _ => t.receipt == Receipt(t.intent, Pending, 0)
  }

  /** An in-flight ticket keeps its run busy, is the one its request finds, and
      agrees with the ledger and the durable history about how far it got. */
  predicate ControlEntry(c: Controls, ref: Ref)
    requires ref in c.tickets
  {
    var t := c.tickets[ref];
    ControlShape(t) && t.run in c.ledgers
    && var own := c.ledgers[t.run];
    (InFlight(t) ==> own.busy && t.intent.id in own.tickets && own.tickets[t.intent.id] == ref)
    && (HoldsIntent(t) || t.phase.Finishing? ==> t.intent.id in own.ledger.entries)
    && (t.phase.Held? || t.phase.RollingBack? ==> c.intents[(t.run, t.intent.id)] == 0)
    && (t.phase.Committed? ==> c.intents[(t.run, t.intent.id)] == 1 && c.applied[(t.run, t.intent.id)] == 0)
  }

  ghost predicate ControlEntries(c: Controls)
  {
    forall ref :: ref in c.tickets ==> ControlEntry(c, ref)
  }

  ghost predicate OneInFlight(c: Controls)
  {
    forall a, b | a in c.tickets && b in c.tickets && InFlight(c.tickets[a]) && InFlight(c.tickets[b])
                  && c.tickets[a].run == c.tickets[b].run :: a == b
  }

  /** A retained request finds its own ticket, and a ledger entry is what that
      ticket shows: pending while held, the final receipt afterwards. */
  predicate Retained(c: Controls, run: RunId, id: RequestId)
    requires run in c.ledgers
  {
    var own := c.ledgers[run];
    (id in own.tickets ==> own.tickets[id] in c.tickets && c.tickets[own.tickets[id]].run == run
                           && c.tickets[own.tickets[id]].intent.id == id)
    && (id in own.ledger.entries ==>
          id in own.tickets && own.tickets[id] in c.tickets
          && var t, e := c.tickets[own.tickets[id]], own.ledger.entries[id];
             e.receipt.intent == t.intent && e.fingerprint == t.fingerprint
             && if HoldsIntent(t) then e.receipt == Receipt(t.intent, Pending, 0)
                else if t.phase.Finishing? then e.receipt == t.phase.final
                else t.phase.Done? && e.receipt == t.receipt)
  }

  ghost predicate AllRetained(c: Controls)
  {
    forall run, id :: run in c.ledgers ==> Retained(c, run, id)
  }

  /** A busy run has a control in flight. */
  ghost predicate BusyWitnessed(c: Controls)
  {
    forall run :: run in c.ledgers && c.ledgers[run].busy ==>
      exists ref :: ref in c.tickets && c.tickets[ref].run == run && InFlight(c.tickets[ref])
  }

  /** An effect needs a durable intent, an intent happens once, and a run with an
      intent still remembers it. */
  ghost predicate IntentsCounted(epoch: nat, o: Ownership, c: Controls)
  {
    (forall run, id :: c.applied[(run, id)] <= c.intents[(run, id)] <= 1)
    && (forall run, id :: c.intents[(run, id)] > 0 ==>
          run in o.drawn
          && if run in o.runs then run in c.ledgers && id in c.ledgers[run].ledger.entries else o.drawn[run].epoch < epoch)
  }

  predicate NotStop(e: LedgerEntry) { e.receipt.intent.kind != Stop }

  /** Sixteen receipts stay reserved for stops. */
  ghost predicate LedgerCapacity(l: Ledger)
  {
    l.nonLifecycle == Count(l.entries, NotStop) <= MAX_CONTROL_RECEIPTS - RESERVED_LIFECYCLE_RECEIPTS
    && |l.entries| <= MAX_CONTROL_RECEIPTS
  }

  ghost predicate LedgersBounded(c: Controls)
  {
    forall run :: run in c.ledgers ==> LedgerCapacity(c.ledgers[run].ledger)
  }

  ghost predicate CtlInv(epoch: nat, o: Ownership, c: Controls)
  {
    c.ledgers.Keys <= o.runs.Keys && c.pending == Count(c.tickets, InFlight) <= MAX_CONTROL_COORDINATORS
    && ControlEntries(c) && OneInFlight(c) && AllRetained(c) && BusyWitnessed(c)
    && IntentsCounted(epoch, o, c) && LedgersBounded(c)
  }
}
