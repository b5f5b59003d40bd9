/** Shutdown steps keep the lifecycle invariant. */
module ShutdownProofs {
  import opened Options
  import opened RuntimeState
  import opened ShutdownSteps
  import opened OwnershipInvariants
  import opened ControlInvariants
  import opened LifecycleInvariants
  import opened RosterProofs
  import opened FrozenProofs
  import opened Counting

  // ---- Moving one unsettled decision ----------------------------------------

  /** What every section of a coordinator does beyond its own ticket. */
  ghost predicate ShutdownMove(epoch: nat, l: Lifecycle, l': Lifecycle, p: PreviewId)
  {
    p in l.shutdowns && p in l'.shutdowns && Unsettled(l.shutdowns[p])
    && var t, t' := l.shutdowns[p], l'.shutdowns[p];
    l'.shutdowns == l.shutdowns[p := t'] && l'.updates == l.updates && l'.preview == l.preview
    && t'.binding == t.binding && t'.purpose == t.purpose && t'.children == t.children
    && (t.committed ==> t'.committed) && ShutdownShape(t')
    && l'.pending == l.pending - One(!Unsettled(t')) && l'.preparing == (l.preparing && Unsettled(t'))
    && l'.committed == (l.committed || t'.committed) && l'.uncertain == (l.uncertain || t'.outcome == ShutdownUnknown)
    && l'.bound == l.bound && l'.starting == l.starting
    && (l'.deferral == l.deferral || (l'.deferral == None && t'.outcome == Draining && t.purpose.Update?))
    && (if t'.committed && !t.committed then l'.decided == l.decided + multiset{(epoch, p)} && l'.closed == l.closed && t'.phase.Closing?
        else l'.decided == l.decided && ClosesOne(l, l', t, t'))
    && l'.cleanChecked == l.cleanChecked && l'.cleaned == l.cleaned
  }

  /** At most the one terminal that leaves the list is closed. */
  ghost predicate ClosesOne(l: Lifecycle, l': Lifecycle, t: ShutdownTicket, t': ShutdownTicket)
  {
    (l'.closed == l.closed && !t'.phase.Closing?)
    || (t.phase.Closing? && t'.phase.Closing?
        && exists r | r in t.phase.todo :: t'.phase.todo == t.phase.todo - {r} && l'.closed == l.closed + multiset{r})
  }

  /** A settled decision that still stands disabled launches. */
  predicate Closes(g: Gate, g': Gate, t': ShutdownTicket)
  {
    (g.disabled ==> g'.disabled) && (g'.exhausted ==> g'.disabled) && g'.revision <= MAX_REVISION
    && (t'.committed || t'.outcome == ShutdownUnknown ==> g'.disabled)
  }

  lemma {:induction false} OneUnsettled(g: Gate, l: Lifecycle)
    requires Coordinated(g, l)
    ensures forall p, q | p in l.shutdowns && q in l.shutdowns && Unsettled(l.shutdowns[p]) && Unsettled(l.shutdowns[q]) :: p == q
  {
    forall p, q | p in l.shutdowns && q in l.shutdowns && Unsettled(l.shutdowns[p]) && Unsettled(l.shutdowns[q]) ensures p == q {
      CountUnique(l.shutdowns, Unsettled, p, q);
    }
  }

  lemma {:induction false} MoveKeepsCoordination(epoch: nat, g: Gate, g': Gate, l: Lifecycle, l': Lifecycle, p: PreviewId)
    requires Coordinated(g, l) && ShutdownMove(epoch, l, l', p) && Closes(g, g', l'.shutdowns[p])
    ensures Coordinated(g', l')
  {
    CountUpdate(l.shutdowns, Unsettled, p, l'.shutdowns[p]);
    OneUnsettled(g, l);
  }

  /** A closed terminal belongs to the roster of a committed decision. */
  lemma {:induction false} ClosedAreDecided(epoch: nat, o: Ownership, l: Lifecycle, l': Lifecycle, p: PreviewId)
    requires TerminalsCounted(epoch, o, l) && Shapes(l) && ShutdownMove(epoch, l, l', p)
    ensures forall r :: l'.closed[r] > 0 && r in o.runs ==>
              exists q :: q in l'.shutdowns && l'.shutdowns[q].committed && r in l'.shutdowns[q].children
  {
    assert ShutdownShape(l.shutdowns[p]);
    forall r | l'.closed[r] > 0 && r in o.runs
      ensures exists q :: q in l'.shutdowns && l'.shutdowns[q].committed && r in l'.shutdowns[q].children
    {
      if l.closed[r] > 0 {
        var q :| q in l.shutdowns && l.shutdowns[q].committed && r in l.shutdowns[q].children;
        assert l'.shutdowns[q].committed && r in l'.shutdowns[q].children;
      } else {
        assert l'.shutdowns[p].committed && r in l'.shutdowns[p].children;
      }
    }
  }

  lemma {:induction false} MoveKeepsTerminals(epoch: nat, o: Ownership, g: Gate, l: Lifecycle, l': Lifecycle, p: PreviewId)
    requires TerminalsCounted(epoch, o, l) && RunEntries(o) && Shapes(l) && Coordinated(g, l) && ShutdownMove(epoch, l, l', p)
    ensures TerminalsCounted(epoch, o, l')
  {
    assert ShutdownShape(l.shutdowns[p]);
    ClosedAreDecided(epoch, o, l, l', p);
    OnlyOneCloses(epoch, o, g, l, l', p);
  }

  /** Terminals still to be closed are not closed yet. */
  lemma {:induction false} OnlyOneCloses(epoch: nat, o: Ownership, g: Gate, l: Lifecycle, l': Lifecycle, p: PreviewId)
    requires TerminalsCounted(epoch, o, l) && Shapes(l) && Coordinated(g, l) && ShutdownMove(epoch, l, l', p)
    ensures forall q, r :: q in l'.shutdowns && l'.shutdowns[q].phase.Closing? && r in l'.shutdowns[q].phase.todo ==> l'.closed[r] == 0
  {
    forall q, r | q in l'.shutdowns && l'.shutdowns[q].phase.Closing? && r in l'.shutdowns[q].phase.todo
      ensures l'.closed[r] == 0
    {
      assert ShutdownShape(l.shutdowns[q]) && ShutdownShape(l.shutdowns[p]);
      assert q == p;
    }
  }

  lemma {:induction false} MoveKeepsRest(epoch: nat, l: Lifecycle, l': Lifecycle, p: PreviewId)
    requires Shapes(l) && DecisionsCounted(epoch, l) && ShutdownMove(epoch, l, l', p)
    ensures Shapes(l') && DecisionsCounted(epoch, l')
  {
  }

  lemma {:induction false} MoveKeepsDeferral(epoch: nat, g: Gate, l: Lifecycle, l': Lifecycle, p: PreviewId)
    requires Coordinated(g, l) && Deferred(l) && ShutdownMove(epoch, l, l', p)
    ensures Deferred(l')
  {
    OneUnsettled(g, l);
  }

  lemma {:induction false} MoveKeepsFrozen(s: State, s': State, p: PreviewId)
    requires Shapes(s.life) && Frozen(s) && CleanPublished(s) && s' == s.(life := s'.life, gate := s'.gate)
    requires ShutdownMove(s.epoch, s.life, s'.life, p) && Closes(s.gate, s'.gate, s'.life.shutdowns[p])
    ensures Frozen(s') && CleanPublished(s')
  {
    assert ShutdownShape(s.life.shutdowns[p]);
  }

  lemma {:induction false} MoveKeeps(s: State, s': State, p: PreviewId)
    requires RunEntries(s.own) && LifeInv(s) && s' == s.(life := s'.life, gate := s'.gate)
    requires ShutdownMove(s.epoch, s.life, s'.life, p) && Closes(s.gate, s'.gate, s'.life.shutdowns[p])
    ensures LifeInv(s')
  {
    MoveKeepsCoordination(s.epoch, s.gate, s'.gate, s.life, s'.life, p);
    MoveKeepsTerminals(s.epoch, s.own, s.gate, s.life, s'.life, p);
    MoveKeepsRest(s.epoch, s.life, s'.life, p);
    MoveKeepsDeferral(s.epoch, s.gate, s.life, s'.life, p);
    MoveKeepsFrozen(s, s', p);
  }

  // ---- The coordinator's sections -------------------------------------------

  lemma {:induction false} FinishMoves(epoch: nat, l: Lifecycle, p: PreviewId, outcome: ShutdownOutcome, error: Failure)
    requires p in l.shutdowns && ShutdownShape(l.shutdowns[p]) && Unsettled(l.shutdowns[p]) && !l.shutdowns[p].committed && l.preparing
    requires outcome == ShutdownRejected || outcome == ShutdownUnknown
    ensures ShutdownMove(epoch, l, FinishShutdown(l, p, outcome, 0, Some(error), false), p)
  {
  }

  lemma {:induction false} CheckMoves(epoch: nat, l: Lifecycle, p: PreviewId, revision: nat, doubtful: bool)
    requires p in l.shutdowns && ShutdownShape(l.shutdowns[p]) && l.shutdowns[p].phase.Revalidating?
    requires l.preparing
    ensures ShutdownMove(epoch, l, CheckShutdown(l, p, revision, doubtful), p)
  {
  }

  lemma {:induction false} CommitMoves(epoch: nat, l: Lifecycle, p: PreviewId)
    requires p in l.shutdowns && ShutdownShape(l.shutdowns[p]) && l.shutdowns[p].phase.Checked? && l.preparing
    ensures ShutdownMove(epoch, l, CommitShutdown(epoch, l, p), p)
  {
  }

  lemma {:induction false} CloseMoves(epoch: nat, l: Lifecycle, p: PreviewId, run: RunId, ok: bool)
    requires p in l.shutdowns && ShutdownShape(l.shutdowns[p]) && l.shutdowns[p].phase.Closing? && run in l.shutdowns[p].phase.todo
    requires l.preparing && l.committed
    ensures ShutdownMove(epoch, l, CloseTerminal(l, p, run, ok), p)
  {
    var l' := CloseTerminal(l, p, run, ok);
    assert |l.shutdowns[p].phase.todo - {run}| == |l.shutdowns[p].phase.todo| - 1;
    assert ClosesOne(l, l', l.shutdowns[p], l'.shutdowns[p]);
  }

  lemma {:induction false} SettleMoves(epoch: nat, l: Lifecycle, p: PreviewId, saved: bool)
    requires p in l.shutdowns && ShutdownShape(l.shutdowns[p]) && l.shutdowns[p].phase.Closing? && l.shutdowns[p].phase.todo == {}
    requires l.preparing && l.committed
    ensures ShutdownMove(epoch, l, SettleShutdown(l, p, saved), p)
  {
  }

  // ---- Confirming -------------------------------------------------------------

  /** The decision is new, its roster owned, and nothing is in motion. */
  ghost predicate Admitted(s: State, purpose: Purpose)
  {
    s.life.preview.Some?
    && var p := s.life.preview.value; var children := Ids(p.runs);
    p.binding.preview !in s.life.shutdowns && p.binding.totalRuns == |children| && children <= s.own.runs.Keys
    && s.own.pending == 0 && s.ctl.pending == 0 && s.life.pending == 0
    && !s.life.preparing && !s.life.committed && !s.life.starting
    && (purpose.Update? ==>
          children == {} && s.own.active == 0 && s.life.bound
          && (s.life.deferral.Some? ==> s.life.deferral.value.target == purpose.target))
  }

  lemma {:induction false} ConfirmAdmitted(s: State, binding: Binding, purpose: Purpose)
    requires Conserved(s.own) && RunEntries(s.own) && Shapes(s.life) && Coordinated(s.gate, s.life)
    requires ConfirmReply(s, binding, true, purpose) == AdmitConfirm
    ensures Admitted(s, purpose)
  {
    InjectiveSize(s.life.preview.value.runs);
    if purpose.Update? { EmptyBindingMeansNoWork(s, binding.preview); }
  }

  lemma {:induction false} ConfirmKeepsTickets(epoch: nat, s: State, g': Gate, purpose: Purpose, reservation: nat)
    requires Coordinated(s.gate, s.life) && Admitted(s, purpose) && Later(s.gate, g')
    requires Shapes(s.life) && DecisionsCounted(epoch, s.life) && Deferred(s.life)
    ensures var l' := ConfirmShutdown(s.life, purpose, reservation);
            Coordinated(g', l') && Shapes(l') && DecisionsCounted(epoch, l') && Deferred(l')
  {
    var l, p := s.life, s.life.preview.value;
    var l' := ConfirmShutdown(l, purpose, reservation);
    CountUpdate(l.shutdowns, Unsettled, p.binding.preview, l'.shutdowns[p.binding.preview]);
    CountZero(l.updates, UnsettledUpdate);
    CountZero(l.shutdowns, Unsettled);
  }

  lemma {:induction false} ConfirmKeeps(s: State, binding: Binding, purpose: Purpose)
    requires Conserved(s.own) && RunEntries(s.own) && LifeInv(s)
    requires ConfirmReply(s, binding, true, purpose) == AdmitConfirm
    ensures LifeInv(ShutdownApply(s, DoConfirmShutdown(binding, purpose)))
  {
    ConfirmAdmitted(s, binding, purpose);
    ConfirmKeepsTickets(s.epoch, s, s.gate.Bump(), purpose, s.gate.Bump().revision);
  }

  // ---- Every step ---------------------------------------------------------------

  lemma {:induction false} PreviewKeeps(s: State, preview: Option<Preview>)
    requires LifeInv(s) && PreviewShape(preview)
    ensures LifeInv(s.(life := s.life.(preview := preview)))
  {
  }

  lemma {:induction false} SectionMoves(s: State, step: ShutdownStep)
    requires Shapes(s.life) && Coordinated(s.gate, s.life) && ShutdownEnabled(s, step)
    requires !step.DoPreviewShutdown? && !step.DoCancelShutdown? && !step.DoConfirmShutdown?
    ensures ShutdownMove(s.epoch, s.life, ShutdownLifecycle(s, step), step.preview)
    ensures Closes(s.gate, ShutdownGate(s.gate, step), ShutdownLifecycle(s, step).shutdowns[step.preview])
  {
    var l, p := s.life, step.preview;
    assert ShutdownShape(l.shutdowns[p]);
    UnsettledPrepares(s.gate, l);
    match step
    case DoRefuseShutdown(_, error) => FinishMoves(s.epoch, l, p, ShutdownRejected, error);
    case DoCheckShutdown(_) => CheckMoves(s.epoch, l, p, s.gate.revision, HasUncertain(s));
    case DoDoubtShutdown(_) => FinishMoves(s.epoch, l, p, ShutdownUnknown, ErrUnknown);
    case DoCommitShutdown(_) => CommitMoves(s.epoch, l, p);
    case DoCloseTerminal(_, run, ok) => CloseMoves(s.epoch, l, p, run, ok);
    case DoSettleShutdown(_, saved) => SettleMoves(s.epoch, l, p, saved);
  }

  lemma {:induction false} ShutdownKeeps(s: State, step: ShutdownStep)
    requires OwnInv(s.epoch, s.own) && LifeInv(s) && ShutdownEnabled(s, step)
    ensures LifeInv(ShutdownApply(s, step))
  {
    if step.DoPreviewShutdown? || step.DoCancelShutdown? {
      RosterInjective(s.epoch, s.own);
      PreviewKeeps(s, ShutdownLifecycle(s, step).preview);
    } else if step.DoConfirmShutdown? {
      ConfirmKeeps(s, step.binding, step.purpose);
    } else {
      SectionMoves(s, step);
      MoveKeeps(s, ShutdownApply(s, step), step.preview);
    }
  }
}
