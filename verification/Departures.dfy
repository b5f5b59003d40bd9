/** How a daemon leaves: a confirmed shutdown drains when its ports cooperate, and an
    idle daemon can hand over to an update and record its clean marker. */
module Departures {
  import opened Options
  import opened RuntimeState
  import opened ShutdownSteps
  import opened LifecycleSteps
  import opened RuntimeMachine
  import opened OwnershipInvariants
  import opened ControlInvariants
  import opened LifecycleInvariants
  import opened Counting
  import opened Admissions
  import opened Cooperation
  import R = RosterProofs
  import Deferrals

  lemma {:induction false} ShutdownChain(s: State, step: ShutdownStep, rest: seq<Step>)
    requires ShutdownEnabled(s, step) && Legal(ShutdownApply(s, step), rest)
    ensures Legal(s, [Shutting(step)] + rest) && After(s, [Shutting(step)] + rest) == After(ShutdownApply(s, step), rest)
  {
    hide ShutdownEnabled, ShutdownApply;
    Chain(s, Shutting(step), rest);
  }

  // ---- Confirming ------------------------------------------------------------------

  /** The preview of a state can be confirmed in it for this purpose. */
  predicate Confirmable(s: State, id: PreviewId, purpose: Purpose)
  {
    var b := BindingOf(s, id);
    id !in s.life.shutdowns && |s.life.shutdowns| < MAX_LAUNCH_REQUESTS
    && s.life.preview == Some(Preview(b, ShutdownRoster(s.own)))
    && BindingInRange(b) && b.pendingLaunches == 0 && b.pendingControls == 0 && b.pendingReconciliations == 0
    && !s.gate.exhausted && s.gate.revision != MAX_REVISION
    && !s.life.preparing && !s.life.committed && !s.life.starting && s.life.pending == 0 && !HasUncertain(s)
    && (forall x :: x in ShutdownRoster(s.own) ==> x.run in s.own.runs)
    && (purpose.Update? ==>
          ShutdownRoster(s.own) == {} && s.life.bound && !s.gate.disabled
          && (s.life.deferral.Some? ==> s.life.deferral.value.target == purpose.target))
  }

  /** Its decision is durable, and these terminals are still to be closed. */
  predicate Decided(s: State, s': State, id: PreviewId, purpose: Purpose, todo: set<RunId>)
  {
    s'.own == s.own && s'.ctl == s.ctl && s'.epoch == s.epoch && s'.gate.disabled
    && DecidedLife(s.life, s'.life, id, purpose, Ids(ShutdownRoster(s.own)), todo)
  }

  predicate DecidedLife(l: Lifecycle, l': Lifecycle, id: PreviewId, purpose: Purpose, children: set<RunId>, todo: set<RunId>)
  {
    l'.uncertain == l.uncertain && l'.deferral == l.deferral && l'.bound == l.bound
    && l'.pending == 1 && l'.committed && l'.updates == l.updates && l'.cleanChecked == l.cleanChecked
    && id in l'.shutdowns && l'.shutdowns.Keys == l.shutdowns.Keys + {id}
    && (forall p :: p in l.shutdowns && p != id ==> l'.shutdowns[p] == l.shutdowns[p])
    && var t := l'.shutdowns[id];
    t.committed && t.purpose == purpose && t.children == children
    && t.phase.Closing? && t.phase.todo == todo && todo <= t.children && !t.phase.failed
    && t.phase.closed == |t.children| - |todo|
  }

  // ---- Previewing ------------------------------------------------------------------

  /** A preview is given exactly in a daemon that is not leaving, starting, saving or in
      doubt, at a revision that can still move; it is dropped exactly by its own binding
      while no decision is made of it. */
  lemma {:induction false} PreviewExactly(s: State, binding: Binding)
    ensures PreviewReply(s).None?
            <==> !s.life.preparing && !s.life.committed && !s.life.starting && s.life.pending <= 0 && !s.life.uncertain
                 && !s.gate.exhausted && s.gate.revision != MAX_REVISION
    ensures CancelReply(s.life, binding).None?
            <==> s.life.preview.Some? && s.life.preview.value.binding == binding
                 && !s.life.preparing && !s.life.committed && !s.life.uncertain
  {
  }

  /** With no launch and no resume in motion, every row of the shutdown roster is an
      owned run. */
  lemma {:induction false} QuietRosterIsOwned(s: State, id: PreviewId, x: RunSnapshot)
    requires Conserved(s.own) && LaunchEntries(s.epoch, s.own) && ResumeEntries(s.epoch, s.own) && RunEntries(s.own) && Indexed(s.own)
    requires BindingOf(s, id).pendingLaunches == 0 && x in ShutdownRoster(s.own)
    ensures x.run in s.own.runs
  {
    R.BindingIsQuiet(s, id);
    R.RosterIsExact(s.epoch, s.own, x.run);
    hide LaunchEntry, ResumeEntry;
    assert x in Roster(s.own);
  }

  /** So a preview of a certain daemon with nothing in motion can be confirmed as long
      as nothing changes: what is drawn up is what is checked. */
  lemma {:induction false} PreviewedIsConfirmable(s: State, id: PreviewId)
    requires OwnInv(s.epoch, s.own) && PreviewReply(s).None? && s.life.pending == 0 && !HasUncertain(s)
    requires id !in s.life.shutdowns && |s.life.shutdowns| < MAX_LAUNCH_REQUESTS
    requires var b := BindingOf(s, id);
             BindingInRange(b) && b.pendingLaunches == 0 && b.pendingControls == 0 && b.pendingReconciliations == 0
    ensures ShutdownEnabled(s, DoPreviewShutdown(id)) && Confirmable(ShutdownApply(s, DoPreviewShutdown(id)), id, Manual)
  {
    forall x | x in ShutdownRoster(s.own) ensures x.run in s.own.runs { QuietRosterIsOwned(s, id, x); }
    hide OwnInv, HasUncertain;
    var s1 := ShutdownApply(s, DoPreviewShutdown(id));
    PreviewSection(s, id);
    SamePreviewed(s, s1, id);
    hide BindingOf, BindingInRange, ShutdownRoster, ShutdownApply, ShutdownEnabled;
  }

  lemma {:induction false} PreviewSection(s: State, id: PreviewId)
    requires PreviewReply(s).None? && id !in s.life.shutdowns
    ensures ShutdownEnabled(s, DoPreviewShutdown(id))
    ensures ShutdownApply(s, DoPreviewShutdown(id)) == s.(life := s.life.(preview := Some(Preview(BindingOf(s, id), ShutdownRoster(s.own)))))
  {
    hide BindingOf, ShutdownRoster;
  }

  /** A stored preview changes neither the binding nor any doubt. */
  lemma {:induction false} SamePreviewed(s: State, s1: State, id: PreviewId)
    requires s1 == s.(life := s1.life) && s1.life == s.life.(preview := s1.life.preview)
    ensures BindingOf(s1, id) == BindingOf(s, id) && (HasUncertain(s1) <==> HasUncertain(s))
  {
  }

  function Confirming(b: Binding, purpose: Purpose, rest: seq<Step>): seq<Step>
  {
    [Shutting(DoConfirmShutdown(b, purpose))] + ([Shutting(DoCheckShutdown(b.preview))] + ([Shutting(DoCommitShutdown(b.preview))] + rest))
  }

  lemma {:induction false} ConfirmStands(s: State, id: PreviewId, purpose: Purpose)
    requires Confirmable(s, id, purpose)
    ensures ShutdownEnabled(s, DoConfirmShutdown(BindingOf(s, id), purpose))
    ensures var s1 := ShutdownApply(s, DoConfirmShutdown(BindingOf(s, id), purpose));
            s1.own == s.own && s1.ctl == s.ctl && s1.epoch == s.epoch
            && s1.life == ConfirmShutdown(s.life, purpose, s1.gate.revision)
  {
    var b := BindingOf(s, id);
    assert b.preview == id && b.rows == ShutdownRoster(s.own) && b.totalRuns == |ShutdownRoster(s.own)|;
    ConfirmationAdmittedExactly(s, b, true, purpose);
    hide ConfirmReply, BindingOf, HasUncertain;
  }

  lemma {:induction false} NoNewDoubt(s: State, s1: State, id: PreviewId, purpose: Purpose)
    requires Confirmable(s, id, purpose) && s1.own == s.own && s1.life == ConfirmShutdown(s.life, purpose, s1.gate.revision)
    ensures !HasUncertain(s1)
  {
  }

  /** The decision as it stands once it was checked. */
  function CheckedTicket(s: State, id: PreviewId, purpose: Purpose): ShutdownTicket
  {
    ShutdownTicket(BindingOf(s, id), purpose, Ids(ShutdownRoster(s.own)), ShutdownPending, 0, None, false, map[], None, Checked)
  }

  lemma {:induction false} CheckPasses(s: State, s1: State, id: PreviewId, purpose: Purpose)
    requires Confirmable(s, id, purpose) && s1.own == s.own && s1.life == ConfirmShutdown(s.life, purpose, s1.gate.revision)
    ensures ShutdownEnabled(s1, DoCheckShutdown(id))
    ensures ShutdownApply(s1, DoCheckShutdown(id))
            == s1.(life := s.life.(preparing := true, pending := 1, shutdowns := s.life.shutdowns[id := CheckedTicket(s, id, purpose)]))
  {
    NoNewDoubt(s, s1, id, purpose);
    assert BindingOf(s, id).preview == id;
    hide HasUncertain, BindingInRange, BindingOf;
  }

  lemma {:induction false} CommitStands(s: State, s2: State, id: PreviewId, purpose: Purpose)
    requires Confirmable(s, id, purpose) && s2.own == s.own && s2.ctl == s.ctl && s2.epoch == s.epoch
    requires s2.life == s.life.(preparing := true, pending := 1, shutdowns := s.life.shutdowns[id := CheckedTicket(s, id, purpose)])
    ensures ShutdownEnabled(s2, DoCommitShutdown(id))
    ensures Decided(s, ShutdownApply(s2, DoCommitShutdown(id)), id, purpose, Ids(ShutdownRoster(s.own)))
  {
    hide HasUncertain, Confirmable, BindingOf, ShutdownRoster, DecidedLife;
    CommitDecides(s.epoch, s.life, s2.life, id, purpose, CheckedTicket(s, id, purpose));
  }

  lemma {:induction false} CommitDecides(epoch: nat, l: Lifecycle, l1: Lifecycle, id: PreviewId, purpose: Purpose, t: ShutdownTicket)
    requires t.purpose == purpose && t.phase == Checked && l1 == l.(preparing := true, pending := 1, shutdowns := l.shutdowns[id := t])
    ensures DecidedLife(l, CommitShutdown(epoch, l1, id), id, purpose, t.children, t.children)
  {
  }

  /** A confirmable preview is confirmed, checked and committed. */
  lemma {:induction false} Commits(s: State, id: PreviewId, purpose: Purpose) returns (s': State)
    requires Confirmable(s, id, purpose)
    ensures Decided(s, s', id, purpose, Ids(ShutdownRoster(s.own)))
    ensures forall rest :: Legal(s', rest) ==>
              Legal(s, Confirming(BindingOf(s, id), purpose, rest)) && After(s, Confirming(BindingOf(s, id), purpose, rest)) == After(s', rest)
  {
    var b := BindingOf(s, id);
    ConfirmStands(s, id, purpose);
    var s1 := ShutdownApply(s, DoConfirmShutdown(b, purpose));
    CheckPasses(s, s1, id, purpose);
    var s2 := ShutdownApply(s1, DoCheckShutdown(id));
    CommitStands(s, s2, id, purpose);
    s' := ShutdownApply(s2, DoCommitShutdown(id));
    assert b.preview == id;
    hide Enabled, Apply, Legal, After, ShutdownEnabled, ShutdownApply, Confirmable, Decided, BindingOf;
    forall rest | Legal(s', rest) ensures Legal(s, Confirming(b, purpose, rest)) && After(s, Confirming(b, purpose, rest)) == After(s', rest) {
      ShutdownChain(s2, DoCommitShutdown(id), rest);
      ShutdownChain(s1, DoCheckShutdown(id), [Shutting(DoCommitShutdown(id))] + rest);
      ShutdownChain(s, DoConfirmShutdown(b, purpose), [Shutting(DoCheckShutdown(id))] + ([Shutting(DoCommitShutdown(id))] + rest));
    }
  }

  // ---- Closing -----------------------------------------------------------------------

  /** Drained: every terminal of the roster closed, the outcome saved, no new doubt, and
      a handoff has retired its deferral. */
  predicate DrainedWell(s: State, s': State, id: PreviewId, purpose: Purpose)
  {
    s'.own == s.own && s'.ctl == s.ctl && s'.epoch == s.epoch && s'.gate.disabled
    && s'.life.uncertain == s.life.uncertain && s'.life.bound == s.life.bound && s'.life.pending == 0 && !s'.life.preparing
    && s'.life.committed && s'.life.cleanChecked == s.life.cleanChecked
    && s'.life.deferral == (if purpose.Update? then None else s.life.deferral)
    && id in s'.life.shutdowns && s'.life.shutdowns.Keys == s.life.shutdowns.Keys + {id}
    && (forall p :: p in s.life.shutdowns && p != id ==> s'.life.shutdowns[p] == s.life.shutdowns[p])
    && var t := s'.life.shutdowns[id];
    t.phase == Settled && t.purpose == purpose && t.outcome == Draining && t.error.None? && t.closedTerminals == |Ids(ShutdownRoster(s.own))|
  }

  lemma {:induction false} Settles(s: State, s1: State, id: PreviewId, purpose: Purpose)
    requires Decided(s, s1, id, purpose, {})
    ensures ShutdownEnabled(s1, DoSettleShutdown(id, true))
    ensures DrainedWell(s, ShutdownApply(s1, DoSettleShutdown(id, true)), id, purpose)
  {
    hide BindingOf, HasUncertain;
  }

  lemma {:induction false} ClosesOne(s: State, s1: State, id: PreviewId, purpose: Purpose, todo: set<RunId>, r: RunId)
    requires Decided(s, s1, id, purpose, todo) && r in todo
    ensures ShutdownEnabled(s1, DoCloseTerminal(id, r, true))
    ensures Decided(s, ShutdownApply(s1, DoCloseTerminal(id, r, true)), id, purpose, todo - {r})
  {
    hide BindingOf, HasUncertain;
    assert |todo - {r}| == |todo| - 1;
  }

  /** All terminals close, one after another, and the decision settles. */
  lemma {:induction false} Drains(s: State, s1: State, id: PreviewId, purpose: Purpose, todo: set<RunId>) returns (steps: seq<Step>)
    requires Decided(s, s1, id, purpose, todo)
    ensures Legal(s1, steps) && DrainedWell(s, After(s1, steps), id, purpose)
    decreases |todo|
  {
    hide Enabled, Apply, Legal, After, ShutdownEnabled, ShutdownApply, Decided, DrainedWell;
    if todo == {} {
      Settles(s, s1, id, purpose);
      Ends(ShutdownApply(s1, DoSettleShutdown(id, true)));
      ShutdownChain(s1, DoSettleShutdown(id, true), []);
      steps := [Shutting(DoSettleShutdown(id, true))] + [];
    } else {
      var r :| r in todo;
      ClosesOne(s, s1, id, purpose, todo, r);
      var s2 := ShutdownApply(s1, DoCloseTerminal(id, r, true));
      var rest := Drains(s, s2, id, purpose, todo - {r});
      ShutdownChain(s1, DoCloseTerminal(id, r, true), rest);
      steps := [Shutting(DoCloseTerminal(id, r, true))] + rest;
    }
  }

  /** A confirmable decision drains when its journal saves it and every terminal closes. */
  lemma {:induction false} ShutdownDrains(s: State, id: PreviewId, purpose: Purpose) returns (steps: seq<Step>)
    requires Confirmable(s, id, purpose)
    ensures Legal(s, steps) && DrainedWell(s, After(s, steps), id, purpose)
  {
    hide Enabled, Apply, Legal, After, Confirmable, Decided, DrainedWell, BindingOf, Confirming;
    var s1 := Commits(s, id, purpose);
    var rest := Drains(s, s1, id, purpose, Ids(ShutdownRoster(s.own)));
    steps := Confirming(BindingOf(s, id), purpose, rest);
  }

  // ---- Quiescence ---------------------------------------------------------------------

  /** Every owned run ended for certain and is reconciled, and nothing is in motion. */
  ghost predicate AtRest(s: State)
  {
    (forall r :: r in s.own.runs ==> s.own.runs[r].phase == Reconciled(true) && !s.own.runs[r].snapshot.uncertain)
    && (forall ref :: ref in s.own.launches ==> s.own.launches[ref].phase == Finished(false))
    && (forall id :: id in s.own.resumes ==> s.own.resumes[id].complete && !s.own.resumes[id].possibleChild)
    && s.ctl.pending == 0
  }

  lemma {:induction false} EmptyRosterExactly(s: State)
    requires Conserved(s.own) && LaunchEntries(s.epoch, s.own) && ResumeEntries(s.epoch, s.own) && RunEntries(s.own) && Indexed(s.own)
    requires BindingOf(s, 0).pendingLaunches == 0
    ensures ShutdownRoster(s.own) == {}
            <==> forall r :: r in s.own.runs ==> s.own.runs[r].snapshot.state == Exited && !s.own.runs[r].snapshot.uncertain
  {
    forall x | x in ShutdownRoster(s.own)
      ensures x.run in s.own.runs && x == s.own.runs[x.run].snapshot && (x.state != Exited || x.uncertain)
    {
      QuietRosterIsOwned(s, 0, x);
      R.RosterInjective(s.epoch, s.own);
      R.RosterIsExact(s.epoch, s.own, x.run);
    }
    forall r | r in s.own.runs && (s.own.runs[r].snapshot.state != Exited || s.own.runs[r].snapshot.uncertain)
      ensures s.own.runs[r].snapshot in ShutdownRoster(s.own)
    {
      R.RosterIsExact(s.epoch, s.own, r);
    }
  }

  /** A daemon is quiescent for an update exactly when everything it owns is at rest, no
      coordinator runs, nothing is in doubt, and it is neither closed nor exhausted. */
  lemma {:induction false} QuiescentExactly(s: State)
    requires OwnInv(s.epoch, s.own)
    ensures Quiescent(s)
            <==> AtRest(s) && !s.life.starting && s.life.pending == 0 && !HasUncertain(s)
                 && !s.gate.disabled && !s.life.preparing && !s.life.committed && !s.gate.exhausted && s.gate.revision != MAX_REVISION
  {
    R.BindingIsQuiet(s, 0);
    if BindingOf(s, 0).pendingLaunches == 0 { EmptyRosterExactly(s); }
    hide Conserved, LaunchEntries, ResumeEntries, Indexed, ShutdownRoster, HasUncertain, StartsCounted, AttemptsCounted;
    assert forall r :: r in s.own.runs ==> RunShape(s.own.runs[r]);
  }

  // ---- Leaving for an update ----------------------------------------------------------

  lemma {:induction false} MaintenanceChain(s: State, step: LifecycleStep, rest: seq<Step>)
    requires LifecycleEnabled(s, step) && Legal(LifecycleApply(s, step), rest)
    ensures Legal(s, [Maintaining(step)] + rest) && After(s, [Maintaining(step)] + rest) == After(LifecycleApply(s, step), rest)
  {
    hide LifecycleEnabled, LifecycleApply;
    Chain(s, Maintaining(step), rest);
  }

  /** The preview offered in a quiescent daemon is confirmable as a handoff. */
  lemma {:induction false} OfferStands(s: State, id: PreviewId, target: TargetId)
    requires Quiescent(s) && s.life.bound && s.life.deferral.None? && id !in s.life.shutdowns && |s.life.shutdowns| < MAX_LAUNCH_REQUESTS
    ensures LifecycleEnabled(s, DoOfferEmptyPreview(id))
    ensures var s1 := LifecycleApply(s, DoOfferEmptyPreview(id));
            Confirmable(s1, id, Update(target)) && s1 == s.(life := s1.life) && s1.life == s.life.(preview := s1.life.preview)
  {
    Deferrals.QuiescentIsEmpty(s, id);
    var s1 := LifecycleApply(s, DoOfferEmptyPreview(id));
    assert BindingOf(s1, id) == BindingOf(s, id);
    assert BindingOf(s, id).rows == ShutdownRoster(s.own);
    hide BindingOf;
  }

  lemma {:induction false} DrainedIsClean(s: State, s': State, id: PreviewId, purpose: Purpose)
    requires DrainedWell(s, s', id, purpose) && s.life.bound && !HasUncertain(s)
    requires s.own.pending == 0 && s.own.active == 0 && s.ctl.pending == 0
    ensures CleanReply(s').None?
  {
  }

  lemma {:induction false} NothingRuns(s: State)
    requires Conserved(s.own) && RunEntries(s.own) && Quiescent(s)
    ensures s.own.pending == 0 && s.own.active == 0 && s.ctl.pending == 0 && !HasUncertain(s)
  {
    Deferrals.QuiescentIsEmpty(s, 0);
    R.EmptyBindingMeansNoWork(s, 0);
  }

  /** A quiescent daemon without a deferral can always go: it is offered an empty
      preview, hands over for the target, and records its clean marker. */
  lemma {:induction false} IdleDaemonLeaves(s: State, id: PreviewId, target: TargetId) returns (steps: seq<Step>)
    requires Conserved(s.own) && RunEntries(s.own) && Quiescent(s) && s.life.bound && s.life.deferral.None?
    requires id !in s.life.shutdowns && |s.life.shutdowns| < MAX_LAUNCH_REQUESTS
    ensures Legal(s, steps)
    ensures var s' := After(s, steps);
            s'.epoch == s.epoch && s'.life.cleaned[s.epoch] > 0
            && id in s'.life.shutdowns && s'.life.shutdowns[id].outcome == Draining && s'.life.shutdowns[id].purpose == Update(target)
  {
    hide Enabled, Apply, Legal, After, LifecycleEnabled, LifecycleApply, Confirmable, DrainedWell, CleanReply, Quiescent, HasUncertain;
    OfferStands(s, id, target);
    NothingRuns(s);
    var s1 := LifecycleApply(s, DoOfferEmptyPreview(id));
    SamePreviewed(s, s1, id);
    var middle := ShutdownDrains(s1, id, Update(target));
    var s2 := After(s1, middle);
    DrainedWellParts(s1, s2, id, Update(target));
    DrainedIsClean(s1, s2, id, Update(target));
    CleanRecords(s2);
    var s3 := LifecycleApply(s2, DoPassCleanCheck);
    Ends(LifecycleApply(s3, DoRecordClean));
    MaintenanceChain(s3, DoRecordClean, []);
    MaintenanceChain(s2, DoPassCleanCheck, [Maintaining(DoRecordClean)] + []);
    var rest := [Maintaining(DoPassCleanCheck)] + ([Maintaining(DoRecordClean)] + []);
    Joined(s1, middle, rest);
    MaintenanceChain(s, DoOfferEmptyPreview(id), middle + rest);
    steps := [Maintaining(DoOfferEmptyPreview(id))] + (middle + rest);
  }

  lemma {:induction false} DrainedWellParts(s: State, s': State, id: PreviewId, purpose: Purpose)
    requires DrainedWell(s, s', id, purpose)
    ensures s'.epoch == s.epoch && id in s'.life.shutdowns && s'.life.shutdowns[id].outcome == Draining && s'.life.shutdowns[id].purpose == purpose
  {
  }

  lemma {:induction false} CleanRecords(s: State)
    requires CleanReply(s).None?
    ensures LifecycleEnabled(s, DoPassCleanCheck)
    ensures var s1 := LifecycleApply(s, DoPassCleanCheck);
            LifecycleEnabled(s1, DoRecordClean)
            && var s2 := LifecycleApply(s1, DoRecordClean);
               s2.epoch == s.epoch && s2.life.shutdowns == s.life.shutdowns && s2.life.cleaned[s.epoch] > 0
  {
    hide CleanReply;
  }

  lemma {:induction false} Joined(s: State, a: seq<Step>, b: seq<Step>)
    requires Legal(s, a) && Legal(After(s, a), b)
    ensures Legal(s, a + b) && After(s, a + b) == After(After(s, a), b)
    decreases |a|
  {
    hide Enabled, Apply;
    if a == [] {
      assert a + b == b;
    } else {
      assert (a + b)[1..] == a[1..] + b;
      Joined(Apply(s, a[0]), a[1..], b);
    }
  }
}
