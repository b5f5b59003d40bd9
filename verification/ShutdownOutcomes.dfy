/** What a shutdown decision answers, for every answer of the terminals and the journal. */
module ShutdownOutcomes {
  import opened Options
  import opened RuntimeState
  import opened ShutdownSteps
  import opened LifecycleInvariants
  import P = ShutdownProofs
  import opened Counting

  predicate Good(ok: bool) { ok }

  predicate AllClosed(t: ShutdownTicket) { forall r :: r in t.closes ==> t.closes[r] }

  /** Every close succeeded and the outcome was saved. */
  predicate Drained(t: ShutdownTicket) { AllClosed(t) && t.saved == Some(true) }

  ghost predicate DecisionAnswered(t: ShutdownTicket)
  {
    match t.phase
    case Closing(todo, closed, failed) =>
      t.closes.Keys == t.children - todo && todo <= t.children && closed == Count(t.closes, Good)
      && (failed <==> !AllClosed(t)) && t.saved.None? && t.error.None?
    case Settled =>
      if t.committed then
        t.closes.Keys == t.children && t.closedTerminals == Count(t.closes, Good) && t.saved.Some?
        && t.outcome == (if Drained(t) then Draining else ShutdownUnknown)
        && t.error == (if Drained(t) then None else Some(ErrUnknown))
      else
        t.closes == map[] && t.saved.None? && t.error.Some? && t.closedTerminals == 0
        && (t.outcome == ShutdownRejected || (t.outcome == ShutdownUnknown && t.error == Some(ErrUnknown)))
    case _ => t.closes == map[] && t.saved.None? && t.error.None?
  }

  ghost predicate DecisionsAnswered(l: Lifecycle) { forall p :: p in l.shutdowns ==> DecisionAnswered(l.shutdowns[p]) }

  lemma {:induction false} CloseAnswers(t: ShutdownTicket, run: RunId, ok: bool)
    requires DecisionAnswered(t) && t.phase.Closing? && run in t.phase.todo
    ensures DecisionAnswered(t.(closes := t.closes[run := ok],
                                phase := Closing(t.phase.todo - {run}, if ok then t.phase.closed + 1 else t.phase.closed, t.phase.failed || !ok)))
  {
    var t' := t.(closes := t.closes[run := ok],
                 phase := Closing(t.phase.todo - {run}, if ok then t.phase.closed + 1 else t.phase.closed, t.phase.failed || !ok));
    CountUpdate(t.closes, Good, run, ok);
    assert t'.closes.Keys == t.children - t'.phase.todo;
    if !AllClosed(t) {
      var r :| r in t.closes && !t.closes[r];
      assert r in t'.closes && !t'.closes[r];
    }
    assert t'.closes[run] == ok;
  }

  lemma {:induction false} SectionAnswers(s: State, step: ShutdownStep)
    requires ShutdownEnabled(s, step)
    requires !step.DoPreviewShutdown? && !step.DoCancelShutdown? && !step.DoConfirmShutdown?
    requires step.preview in s.life.shutdowns && ShutdownShape(s.life.shutdowns[step.preview])
    requires DecisionAnswered(s.life.shutdowns[step.preview])
    ensures step.preview in ShutdownLifecycle(s, step).shutdowns && DecisionAnswered(ShutdownLifecycle(s, step).shutdowns[step.preview])
  {
    hide ShutdownLifecycle, DecisionAnswered, ShutdownShape;
    match step
    case DoRefuseShutdown(p, error) => RefusalAnswers(s, p, error);
    case DoCheckShutdown(p) => CheckAnswers(s, p);
    case DoDoubtShutdown(p) => DoubtAnswers(s, p);
    case DoCommitShutdown(p) => CommitAnswers(s, p);
    case DoCloseTerminal(p, run, ok) => TerminalAnswers(s, p, run, ok);
    case DoSettleShutdown(p, saved) => SettleAnswers(s, p, saved);
  }

  ghost predicate Before(s: State, step: ShutdownStep, p: PreviewId)
  {
    ShutdownEnabled(s, step) && p in s.life.shutdowns && ShutdownShape(s.life.shutdowns[p]) && DecisionAnswered(s.life.shutdowns[p])
  }

  ghost predicate Behind(s: State, step: ShutdownStep, p: PreviewId)
    requires ShutdownEnabled(s, step)
  {
    p in ShutdownLifecycle(s, step).shutdowns && DecisionAnswered(ShutdownLifecycle(s, step).shutdowns[p])
  }

  lemma {:induction false} RefusalAnswers(s: State, p: PreviewId, error: Failure)
    requires Before(s, DoRefuseShutdown(p, error), p)
    ensures Behind(s, DoRefuseShutdown(p, error), p)
  {
  }

  lemma {:induction false} CheckAnswers(s: State, p: PreviewId)
    requires Before(s, DoCheckShutdown(p), p)
    ensures Behind(s, DoCheckShutdown(p), p)
  {
    hide HasUncertain;
  }

  lemma {:induction false} DoubtAnswers(s: State, p: PreviewId)
    requires Before(s, DoDoubtShutdown(p), p)
    ensures Behind(s, DoDoubtShutdown(p), p)
  {
  }

  lemma {:induction false} CommitAnswers(s: State, p: PreviewId)
    requires Before(s, DoCommitShutdown(p), p)
    ensures Behind(s, DoCommitShutdown(p), p)
  {
    assert Where(s.life.shutdowns[p].closes, Good) == {};
  }

  lemma {:induction false} TerminalAnswers(s: State, p: PreviewId, run: RunId, ok: bool)
    requires Before(s, DoCloseTerminal(p, run, ok), p)
    ensures Behind(s, DoCloseTerminal(p, run, ok), p)
  {
    hide DecisionAnswered;
    CloseAnswers(s.life.shutdowns[p], run, ok);
  }

  lemma {:induction false} SettleAnswers(s: State, p: PreviewId, saved: bool)
    requires Before(s, DoSettleShutdown(p, saved), p)
    ensures Behind(s, DoSettleShutdown(p, saved), p)
  {
    var t := s.life.shutdowns[p];
    assert t.children - {} == t.children;
  }

  lemma {:induction false} ShutdownKeepsAnswers(s: State, step: ShutdownStep)
    requires Shapes(s.life) && Coordinated(s.gate, s.life) && DecisionsAnswered(s.life) && ShutdownEnabled(s, step)
    ensures DecisionsAnswered(ShutdownLifecycle(s, step))
  {
    hide BindingOf, ConfirmReply, HasUncertain, PreviewReply, CancelReply, Coordinated, ShutdownShape;
    if !(step.DoPreviewShutdown? || step.DoCancelShutdown? || step.DoConfirmShutdown?) {
      assert step.preview in s.life.shutdowns;
      hide ShutdownLifecycle, ShutdownEnabled, DecisionAnswered;
      SectionAnswers(s, step);
      P.SectionMoves(s, step);
    }
  }

  /** Settling a committed decision: doubt about it is the only doubt it adds, and
      only a drained handoff retires the deferral. */
  lemma {:induction false} SettlingIsExact(s: State, p: PreviewId, saved: bool)
    requires Shapes(s.life) && DecisionsAnswered(s.life) && ShutdownEnabled(s, DoSettleShutdown(p, saved))
    ensures var l, l' := s.life, ShutdownLifecycle(s, DoSettleShutdown(p, saved)); var t, t' := l.shutdowns[p], l'.shutdowns[p];
            t'.committed && t'.closes == t.closes && t'.saved == Some(saved)
            && (t'.outcome == Draining <==> saved && AllClosed(t))
            && l'.uncertain == (l.uncertain || !(saved && AllClosed(t)))
            && l'.deferral == (if t.purpose.Update? && saved && AllClosed(t) then None else l.deferral)
            && !l'.preparing && l'.pending == l.pending - 1
  {
    assert ShutdownShape(s.life.shutdowns[p]) && DecisionAnswered(s.life.shutdowns[p]);
  }
}
