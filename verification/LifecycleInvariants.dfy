/** What every reachable lifecycle state satisfies, and the whole invariant. */
module LifecycleInvariants {
  import opened Options
  import opened RuntimeState
  import opened OwnershipInvariants
  import opened ControlInvariants
  import opened Counting

  predicate Unsettled(t: ShutdownTicket) { t.phase != Settled }

  predicate UnsettledUpdate(u: UpdateTicket) { !u.settled }

  /** A decision that still stands: pending, draining, or in doubt. */
  predicate Stands(t: ShutdownTicket) { t.outcome != ShutdownRejected }

  ghost predicate Injective(rows: set<RunSnapshot>)
  {
    forall x, y :: x in rows && y in rows && x.run == y.run ==> x == y
  }

  ghost predicate PreviewShape(preview: Option<Preview>)
  {
    preview.Some? ==> preview.value.binding.totalRuns == |preview.value.runs| && Injective(preview.value.runs)
  }

  predicate ShutdownShape(t: ShutdownTicket)
  {
    && t.binding.totalRuns == |t.children|
    && (t.outcome == ShutdownPending <==> Unsettled(t))
    && (t.purpose.Update? ==> t.children == {})
    && (t.committed ==> t.phase.Closing? || t.phase == Settled)
    && (t.phase.Closing? ==> t.committed && t.phase.todo <= t.children)
    && (t.phase.Closing? && !t.phase.failed ==> t.phase.closed + |t.phase.todo| == |t.children|)
    && (t.outcome == Draining ==> t.committed && t.error.None? && t.closedTerminals == t.binding.totalRuns)
    && (t.outcome == ShutdownRejected ==> !t.committed)
  }

  ghost predicate Shapes(l: Lifecycle)
  {
    PreviewShape(l.preview)
    && forall p :: p in l.shutdowns ==> l.shutdowns[p].binding.preview == p && ShutdownShape(l.shutdowns[p])
  }

  /** One coordinator at a time; one committed decision; doubt and decisions
      disable launches for good. */
  ghost predicate Coordinated(g: Gate, l: Lifecycle)
  {
    && l.pending == Count(l.shutdowns, Unsettled) + Count(l.updates, UnsettledUpdate) <= 1
    && Count(l.shutdowns, Unsettled) == One(l.preparing)
    && (forall p :: p in l.shutdowns && l.shutdowns[p].committed ==> l.committed)
    && (forall p, q | p in l.shutdowns && q in l.shutdowns && l.shutdowns[p].committed
                      && (l.shutdowns[q].committed || Unsettled(l.shutdowns[q])) :: p == q)
    && (forall p :: p in l.shutdowns && l.shutdowns[p].outcome == ShutdownUnknown ==> l.uncertain)
    && (l.committed ==> g.disabled) && (l.uncertain ==> g.disabled)
    && (l.starting ==> !l.preparing && !l.bound)
    && (g.exhausted ==> g.disabled) && g.revision <= MAX_REVISION
  }

  /** A standing decision froze new work: nothing is pending and nothing more is
      admitted; while it is unsettled no control runs; and an update handoff owns
      no live work at all. */
  ghost predicate Frozen(s: State)
  {
    forall p :: p in s.life.shutdowns && Stands(s.life.shutdowns[p]) ==>
      var t := s.life.shutdowns[p];
      s.own.pending == 0 && (Unsettled(t) || s.gate.disabled)
      && (Unsettled(t) ==> s.ctl.pending == 0)
      && (t.purpose.Update? ==> s.own.active == 0 && s.ctl.pending == 0)
  }

  /** Terminals close once, only for a committed decision over its own roster. */
  ghost predicate TerminalsCounted(epoch: nat, o: Ownership, l: Lifecycle)
  {
    && (forall r :: l.closed[r] <= 1)
    && (forall r :: l.closed[r] > 0 ==> r in o.drawn && (r !in o.runs ==> o.drawn[r].epoch < epoch))
    && (forall r :: l.closed[r] > 0 && r in o.runs ==>
          exists p :: p in l.shutdowns && l.shutdowns[p].committed && r in l.shutdowns[p].children)
    && (forall p :: p in l.shutdowns ==> l.shutdowns[p].children <= o.runs.Keys)
    && (forall p, r :: p in l.shutdowns && l.shutdowns[p].phase.Closing? && r in l.shutdowns[p].phase.todo ==> l.closed[r] == 0)
  }

  ghost predicate DecisionsCounted(epoch: nat, l: Lifecycle)
  {
    && (forall e: nat, p :: l.decided[(e, p)] <= 1 && (e > epoch ==> l.decided[(e, p)] == 0))
    && (forall p :: l.decided[(epoch, p)] == 1 <==> p in l.shutdowns && l.shutdowns[p].committed)
  }

  /** The cached deferral and the coordinators that may replace or retire it. */
  ghost predicate Deferred(l: Lifecycle)
  {
    && (l.deferral.Some? ==> l.bound)
    && (forall u :: u in l.updates && UnsettledUpdate(l.updates[u]) ==>
          l.bound
          && (l.deferral.Some? ==> l.updates[u].candidate.started == l.deferral.value.started
                                   && (l.deferral.value.notified ==> l.updates[u].candidate.notified)))
    && (forall p :: p in l.shutdowns && Unsettled(l.shutdowns[p]) && l.shutdowns[p].purpose.Update? ==>
          l.bound && (l.deferral.Some? ==> l.deferral.value.target == l.shutdowns[p].purpose.target))
  }

  /** Wait confirmed the exit and the journal took it. */
  predicate CleanRun(r: OwnedRun)
  {
    r.phase == Reconciled(true) && r.exitSaved && r.snapshot.state == Exited && !r.snapshot.uncertain
  }

  /** Nothing owned is left, and nothing ended in doubt. */
  ghost predicate Clean(s: State)
  {
    s.gate.disabled && s.life.bound
    && s.own.pending == 0 && s.own.active == 0 && s.ctl.pending == 0
    && forall r :: r in s.own.runs ==> CleanRun(s.own.runs[r])
  }

  ghost predicate CleanPublished(s: State)
  {
    (s.life.cleanChecked ==> Clean(s))
    && (forall e: nat :: s.life.cleaned[e] > 0 ==> e <= s.epoch)
    && (s.life.cleaned[s.epoch] > 0 ==> s.life.cleanChecked)
  }

  ghost predicate LifeInv(s: State)
  {
    Shapes(s.life) && Coordinated(s.gate, s.life) && Frozen(s)
    && TerminalsCounted(s.epoch, s.own, s.life) && DecisionsCounted(s.epoch, s.life)
    && Deferred(s.life) && CleanPublished(s)
  }

  ghost predicate Inv(s: State)
  {
    OwnInv(s.epoch, s.own) && CtlInv(s.epoch, s.own, s.ctl) && LifeInv(s)
  }
}
