/** Control steps keep the control invariant. */
module ControlProofs {
  import opened RuntimeState
  import opened ControlSteps
  import opened OwnershipInvariants
  import opened ControlInvariants
  import opened Counting

  /** What every control step after admission does: it moves its own in-flight
      ticket and the controls of its run, and may count its intent or effect. */
  ghost predicate ControlMove(c: Controls, c': Controls, ref: Ref)
  {
    ref in c.tickets && ref in c'.tickets && InFlight(c.tickets[ref])
    && var t, t' := c.tickets[ref], c'.tickets[ref];
    t.run in c.ledgers && t.run in c'.ledgers
    && t'.run == t.run && t'.intent == t.intent && t'.fingerprint == t.fingerprint
    && var k, own, own' := (t.run, t.intent.id), c.ledgers[t.run], c'.ledgers[t.run];
    c'.tickets == c.tickets[ref := t'] && c'.ledgers == c.ledgers[t.run := own']
    && own'.tickets == (if t.intent.id in own'.tickets then own.tickets else own.tickets - {t.intent.id})
    && own'.busy == InFlight(t')
    && (forall id :: id != t.intent.id ==> (id in own'.ledger.entries <==> id in own.ledger.entries)
                                           && (id in own.ledger.entries ==> own'.ledger.entries[id] == own.ledger.entries[id]))
    && c'.pending == c.pending - One(!InFlight(t'))
    && (c'.intents == c.intents || c'.intents == c.intents + multiset{k})
    && (c'.applied == c.applied || c'.applied == c.applied + multiset{k})
  }

  lemma {:induction false} MoveKeepsEntries(c: Controls, c': Controls, ref: Ref)
    requires ControlEntries(c) && OneInFlight(c) && ControlMove(c, c', ref) && ControlEntry(c', ref)
    ensures ControlEntries(c') && OneInFlight(c')
  {
    forall q | q in c'.tickets && q != ref ensures ControlEntry(c', q) { assert ControlEntry(c, q); }
  }

  lemma {:induction false} MoveKeepsRetained(c: Controls, c': Controls, ref: Ref)
    requires AllRetained(c) && ControlMove(c, c', ref)
    requires var t := c.tickets[ref]; Retained(c', t.run, t.intent.id)
    requires var t := c.tickets[ref]; t.intent.id in c.ledgers[t.run].tickets && c.ledgers[t.run].tickets[t.intent.id] == ref
    ensures AllRetained(c')
  {
    forall run, id | run in c'.ledgers ensures Retained(c', run, id) {
      assert Retained(c, run, id);
    }
  }

  lemma {:induction false} MoveKeepsBusy(c: Controls, c': Controls, ref: Ref)
    requires BusyWitnessed(c) && ControlMove(c, c', ref)
    ensures BusyWitnessed(c')
  {
    forall run | run in c'.ledgers && c'.ledgers[run].busy
      ensures exists q :: q in c'.tickets && c'.tickets[q].run == run && InFlight(c'.tickets[q])
    {
      if run != c.tickets[ref].run {
        var q :| q in c.tickets && c.tickets[q].run == run && InFlight(c.tickets[q]);
        assert c'.tickets[q] == c.tickets[q];
      }
    }
  }

  lemma {:induction false} MoveKeepsIntents(epoch: nat, o: Ownership, c: Controls, c': Controls, ref: Ref)
    requires IntentsCounted(epoch, o, c) && ControlMove(c, c', ref) && c.ledgers.Keys <= o.runs.Keys && RunEntries(o)
    requires var t := c.tickets[ref]; var k := (t.run, t.intent.id);
             c'.applied[k] <= c'.intents[k] <= 1 && (c'.intents[k] > 0 ==> t.intent.id in c'.ledgers[t.run].ledger.entries)
    ensures IntentsCounted(epoch, o, c')
  {
  }

  lemma {:induction false} MoveKeepsLedgers(c: Controls, c': Controls, ref: Ref)
    requires LedgersBounded(c) && ControlMove(c, c', ref) && LedgerCapacity(c'.ledgers[c.tickets[ref].run].ledger)
    ensures LedgersBounded(c')
  {
  }

  /** A control step in order, seen from its own ticket. */
  ghost predicate GoodMove(c: Controls, c': Controls, ref: Ref)
  {
    ControlMove(c, c', ref) && ControlEntry(c', ref)
    && var t := c.tickets[ref]; var k := (t.run, t.intent.id);
    t.intent.id in c.ledgers[t.run].tickets && c.ledgers[t.run].tickets[t.intent.id] == ref
    && Retained(c', t.run, t.intent.id)
    && c'.applied[k] <= c'.intents[k] <= 1 && (c'.intents[k] > 0 ==> t.intent.id in c'.ledgers[t.run].ledger.entries)
    && LedgerCapacity(c'.ledgers[t.run].ledger)
  }

  lemma {:induction false} MoveKeeps(epoch: nat, o: Ownership, c: Controls, c': Controls, ref: Ref)
    requires RunEntries(o) && CtlInv(epoch, o, c) && GoodMove(c, c', ref)
    ensures CtlInv(epoch, o, c')
  {
    CountUpdate(c.tickets, InFlight, ref, c'.tickets[ref]);
    MoveKeepsEntries(c, c', ref);
    MoveKeepsRetained(c, c', ref);
    MoveKeepsBusy(c, c', ref);
    MoveKeepsIntents(epoch, o, c, c', ref);
    MoveKeepsLedgers(c, c', ref);
    assert c'.ledgers.Keys == c.ledgers.Keys;
  }

  // ---- The ledger ---------------------------------------------------------

  lemma {:induction false} ReserveKeepsCapacity(l: Ledger, intent: Intent, fingerprint: nat)
    requires LedgerCapacity(l) && Reserve(l, intent, fingerprint).LedgerOk?
    ensures LedgerCapacity(Reserve(l, intent, fingerprint).ledger)
  {
    var l' := Reserve(l, intent, fingerprint).ledger;
    if intent.id !in l.entries {
      CountUpdate(l.entries, NotStop, intent.id, l'.entries[intent.id]);
      assert l'.entries.Keys == l.entries.Keys + {intent.id};
      assert |l'.entries.Keys| == |l'.entries|;
    }
  }

  lemma {:induction false} RecordKeepsCapacity(l: Ledger, id: RequestId, outcome: Outcome, written: int)
    requires LedgerCapacity(l) && Record(l, id, outcome, written).LedgerOk?
    ensures LedgerCapacity(Record(l, id, outcome, written).ledger)
  {
    var l' := Record(l, id, outcome, written).ledger;
    CountUpdate(l.entries, NotStop, id, l'.entries[id]);
    assert l'.entries.Keys == l.entries.Keys;
    assert |l'.entries.Keys| == |l'.entries|;
  }

  lemma {:induction false} AbandonKeepsCapacity(l: Ledger, id: RequestId)
    requires LedgerCapacity(l) && Abandon(l, id).LedgerOk?
    ensures LedgerCapacity(Abandon(l, id).ledger)
  {
    var l' := Abandon(l, id).ledger;
    CountUpdate(l'.entries, NotStop, id, l.entries[id]);
    assert l.entries == l'.entries[id := l.entries[id]];
    assert l.entries.Keys == l'.entries.Keys + {id};
    assert |l'.entries.Keys| == |l'.entries|;
  }

  // ---- Steps --------------------------------------------------------------

  /** What a step may use about its own ticket. */
  ghost predicate Mine(c: Controls, ref: Ref)
  {
    Owned(c, ref) && ControlEntry(c, ref)
    && var t := c.tickets[ref]; var k := (t.run, t.intent.id);
    Retained(c, t.run, t.intent.id) && LedgerCapacity(c.ledgers[t.run].ledger)
    && c.applied[k] <= c.intents[k] <= 1
    && (c.intents[k] > 0 ==> t.intent.id in c.ledgers[t.run].ledger.entries)
  }

  lemma {:induction false} RejectMoves(c: Controls, ref: Ref, error: Failure)
    requires Mine(c, ref) && (ControlIn(c, ref, Validating) || ControlIn(c, ref, Rejecting))
    ensures GoodMove(c, RejectControl(c, ref, error), ref)
  {
  }

  lemma {:induction false} HoldMoves(c: Controls, ref: Ref, live: bool)
    requires Mine(c, ref) && ControlIn(c, ref, Validating)
    ensures GoodMove(c, HoldIntent(c, ref, live), ref)
  {
    var t := c.tickets[ref];
    var reply := Reserve(c.ledgers[t.run].ledger, t.intent, t.fingerprint);
    if live && reply.LedgerOk? {
      ReserveKeepsCapacity(c.ledgers[t.run].ledger, t.intent, t.fingerprint);
    } else {
    }
  }

  lemma {:induction false} IntentMoves(c: Controls, ref: Ref, answer: Durability)
    requires Mine(c, ref) && ControlIn(c, ref, Held)
    ensures GoodMove(c, ReserveIntent(c, ref, answer), ref)
  {
  }

  lemma {:induction false} AbandonMoves(c: Controls, ref: Ref)
    requires Mine(c, ref) && ControlIn(c, ref, RollingBack)
    ensures GoodMove(c, AbandonIntent(c, ref), ref)
    ensures AbandonIntent(c, ref).tickets[ref].phase == Rejecting
  {
    var t := c.tickets[ref];
    AbandonKeepsCapacity(c.ledgers[t.run].ledger, t.intent.id);
  }

  lemma {:induction false} ApplyMoves(c: Controls, ref: Ref, answer: ControlEffect)
    requires Mine(c, ref) && ControlIn(c, ref, Committed)
    ensures GoodMove(c, ApplyControl(c, ref, answer), ref)
  {
  }

  lemma {:induction false} SkipMoves(c: Controls, ref: Ref)
    requires Mine(c, ref) && ControlIn(c, ref, Committed)
    ensures GoodMove(c, SkipControl(c, ref), ref)
  {
  }

  lemma {:induction false} RecordMoves(c: Controls, ref: Ref, saved: bool)
    requires Mine(c, ref) && c.tickets[ref].phase.Completing?
    ensures GoodMove(c, RecordControl(c, ref, saved), ref)
  {
    var t := c.tickets[ref];
    var result := ResultOf(t, t.phase.effect, saved);
    RecordKeepsCapacity(c.ledgers[t.run].ledger, t.intent.id, result.outcome, result.written);
  }

  lemma {:induction false} FinishMoves(c: Controls, ref: Ref)
    requires Mine(c, ref) && c.tickets[ref].phase.Finishing?
    ensures GoodMove(c, FinishControl(c, ref), ref)
  {
  }

  // ---- Admission ----------------------------------------------------------

  /** The request was never admitted on this run, and the run is not busy. */
  ghost predicate Admissible(epoch: nat, o: Ownership, c: Controls, run: RunId, intent: Intent, ref: Ref)
  {
    run in o.runs && ref !in c.tickets && !BusyRun(c, run) && c.pending < MAX_CONTROL_COORDINATORS
    && (run in c.ledgers && intent.id in c.ledgers[run].tickets ==> c.ledgers[run].tickets[intent.id] !in c.tickets)
  }

  lemma {:induction false} AdmitKeepsEntries(c: Controls, run: RunId, intent: Intent, fingerprint: nat, ref: Ref)
    requires ControlEntries(c) && OneInFlight(c) && ref !in c.tickets && !BusyRun(c, run)
    ensures var c' := AdmitControl(c, run, intent, fingerprint, ref); ControlEntries(c') && OneInFlight(c')
  {
    var c' := AdmitControl(c, run, intent, fingerprint, ref);
    forall q | q in c'.tickets && q != ref ensures ControlEntry(c', q) { assert ControlEntry(c, q); }
  }

  lemma {:induction false} AdmitKeepsRetained(c: Controls, run: RunId, intent: Intent, fingerprint: nat, ref: Ref)
    requires AllRetained(c) && ref !in c.tickets
    requires run in c.ledgers && intent.id in c.ledgers[run].tickets ==> c.ledgers[run].tickets[intent.id] !in c.tickets
    ensures AllRetained(AdmitControl(c, run, intent, fingerprint, ref))
  {
    var c' := AdmitControl(c, run, intent, fingerprint, ref);
    forall r, id | r in c'.ledgers ensures Retained(c', r, id) {
      if r in c.ledgers { assert Retained(c, r, id); }
    }
  }

  lemma {:induction false} AdmitKeepsBusy(c: Controls, run: RunId, intent: Intent, fingerprint: nat, ref: Ref)
    requires BusyWitnessed(c) && ref !in c.tickets
    ensures BusyWitnessed(AdmitControl(c, run, intent, fingerprint, ref))
  {
    var c' := AdmitControl(c, run, intent, fingerprint, ref);
    forall r | r in c'.ledgers && c'.ledgers[r].busy
      ensures exists q :: q in c'.tickets && c'.tickets[q].run == r && InFlight(c'.tickets[q])
    {
      if r != run {
        var q :| q in c.tickets && c.tickets[q].run == r && InFlight(c.tickets[q]);
        assert c'.tickets[q] == c.tickets[q];
      } else {
        assert c'.tickets[ref].run == run && InFlight(c'.tickets[ref]);
      }
    }
  }

  lemma {:induction false} AdmitKeeps(epoch: nat, o: Ownership, c: Controls, run: RunId, intent: Intent, fingerprint: nat, ref: Ref)
    requires CtlInv(epoch, o, c) && Admissible(epoch, o, c, run, intent, ref)
    ensures CtlInv(epoch, o, AdmitControl(c, run, intent, fingerprint, ref))
  {
    var c' := AdmitControl(c, run, intent, fingerprint, ref);
    CountUpdate(c.tickets, InFlight, ref, c'.tickets[ref]);
    AdmitKeepsEntries(c, run, intent, fingerprint, ref);
    AdmitKeepsRetained(c, run, intent, fingerprint, ref);
    AdmitKeepsBusy(c, run, intent, fingerprint, ref);
  }

  lemma {:induction false} MineOf(epoch: nat, o: Ownership, c: Controls, ref: Ref)
    requires CtlInv(epoch, o, c) && Owned(c, ref)
    ensures Mine(c, ref)
  {
    assert ControlEntry(c, ref) && Retained(c, c.tickets[ref].run, c.tickets[ref].intent.id);
  }

  lemma {:induction false} TicketMoves(s: State, step: ControlStep)
    requires ControlEnabled(s, step) && !step.DoAdmitControl? && Mine(s.ctl, step.ref)
    ensures GoodMove(s.ctl, ControlControls(s, step), step.ref)
  {
    var c, ref := s.ctl, step.ref;
    match step
    case DoRejectControl(_, error) => RejectMoves(c, ref, error);
    case DoHoldIntent(_) => HoldMoves(c, ref, LiveRun(s.own, c.tickets[ref].run));
    case DoReserveIntent(_, answer) => IntentMoves(c, ref, answer);
    case DoAbandonIntent(_) => AbandonMoves(c, ref);
    case DoApplyControl(_, effect) => ApplyMoves(c, ref, effect);
    case DoSkipControl(_) => SkipMoves(c, ref);
    case DoRecordControl(_, saved) => RecordMoves(c, ref, saved);
    case DoFinishControl(_) => FinishMoves(c, ref);
  }

  /** Every control step keeps the controls in order. */
  lemma {:induction false} ControlKeeps(s: State, step: ControlStep)
    requires RunEntries(s.own) && CtlInv(s.epoch, s.own, s.ctl) && ControlEnabled(s, step)
    ensures CtlInv(s.epoch, s.own, ControlControls(s, step))
  {
    hide CtlInv, GoodMove, Mine;
    var c, ref := s.ctl, step.ref;
    if step.DoAdmitControl? {
      AdmitKeeps(s.epoch, s.own, c, step.run, step.intent, step.fingerprint, ref);
    } else {
      MineOf(s.epoch, s.own, c, ref);
      TicketMoves(s, step);
      MoveKeeps(s.epoch, s.own, c, ControlControls(s, step), ref);
    }
  }

  // ---- Busy runs ----------------------------------------------------------

  function BusyRuns(c: Controls): set<RunId> { set r | r in c.ledgers && c.ledgers[r].busy }

  /** The pending counter is the number of busy runs. */
  lemma {:induction false} PendingIsBusyRuns(c: Controls)
    requires c.pending == Count(c.tickets, InFlight) && ControlEntries(c) && OneInFlight(c) && BusyWitnessed(c)
    ensures c.pending == |BusyRuns(c)|
  {
    var flights := Where(c.tickets, InFlight);
    RunsOfFlights(c, flights);
    var runs := set q | q in flights :: c.tickets[q].run;
    forall r | r in BusyRuns(c) ensures r in runs {
      var q :| q in c.tickets && c.tickets[q].run == r && InFlight(c.tickets[q]);
      assert q in flights;
    }
    assert forall q :: q in flights ==> ControlEntry(c, q);
    assert runs == BusyRuns(c);
  }

  lemma {:induction false} RunsOfFlights(c: Controls, flights: set<Ref>)
    requires OneInFlight(c) && flights <= Where(c.tickets, InFlight)
    ensures |set q | q in flights :: c.tickets[q].run| == |flights|
    decreases |flights|
  {
    if flights != {} {
      var q :| q in flights;
      RunsOfFlights(c, flights - {q});
      var rest := set p | p in flights - {q} :: c.tickets[p].run;
      assert (set p | p in flights :: c.tickets[p].run) == rest + {c.tickets[q].run};
    }
  }
}
