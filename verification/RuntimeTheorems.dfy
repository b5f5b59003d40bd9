/** What the daemon promises over whole runs: any interleaving of lock sections and
    port answers, across any number of crashes and restarts. */
module RuntimeTheorems {
  import opened RuntimeState
  import opened LaunchSteps
  import opened ResumeSteps
  import opened ControlSteps
  import opened ShutdownSteps
  import opened LifecycleSteps
  import opened RuntimeMachine
  import opened OwnershipInvariants
  import opened ControlInvariants
  import opened LifecycleInvariants
  import opened RuntimeProofs
  import opened FrozenProofs
  import opened Traces
  import opened Finality
  import opened Counting

  // ---- Effects happen at most once ------------------------------------------

  lemma {:induction false} HistoryAtMostOne(s: State, k: Key)
    requires Inv(s) && !k.CleanKey?
    ensures History(s, k) <= 1
  {
  }

  lemma {:induction false} BootHasNoHistory(k: Key)
    ensures History(Boot, k) == 0
  {
  }

  /** One native start per launch request and epoch; one native resume per request
      across all epochs; one durable intent and one native effect per run and
      control request; one durable decision per preview; one closing per run. */
  lemma {:induction false} AtMostOnce(steps: seq<Step>, i: nat, j: nat)
    requires Legal(Boot, steps) && i < j < |Trace(Boot, steps)|
    requires KeyOf(Trace(Boot, steps)[i]) == KeyOf(Trace(Boot, steps)[j])
    ensures Trace(Boot, steps)[i].effect.MarkClean?
  {
    hide Inv, Enabled, Apply, Effects, History;
    var tr := Trace(Boot, steps);
    var k := KeyOf(tr[i]);
    Reachable(steps);
    RunRecords(Boot, steps, k);
    BootHasNoHistory(k);
    TwiceCounts(tr, i, j);
    if !k.CleanKey? { HistoryAtMostOne(After(Boot, steps), k); }
  }

  // ---- Durable evidence comes first -------------------------------------------

  lemma {:induction false} ApplyNeedsIntent(s: State, step: Step, e: Event)
    requires Inv(s) && Enabled(s, step) && Effects(s, step) == [e] && e.effect.ApplyEffect?
    ensures History(s, IntentKey(e.effect.run, e.effect.request)) > 0
  {
    hide LaunchEnabled, ResumeEnabled, LifecycleEnabled, ShutdownEnabled, OwnInv, LifeInv;
    assert ControlEntry(s.ctl, step.control.ref);
  }

  lemma {:induction false} CloseNeedsDecision(s: State, step: Step, e: Event) returns (p: PreviewId)
    requires Inv(s) && Enabled(s, step) && Effects(s, step) == [e] && e.effect.Close?
    ensures History(s, DecideKey(e.epoch, p)) > 0
  {
    hide LaunchEnabled, ResumeEnabled, LifecycleEnabled, ControlEnabled, OwnInv, CtlInv;
    hide Coordinated, Frozen, TerminalsCounted, Deferred, CleanPublished;
    p := step.shutdown.preview;
    assert ShutdownShape(s.life.shutdowns[p]);
  }

  /** A native control effect follows its committed intent, and a terminal is
      closed only after a decision of the same epoch became durable. */
  lemma {:induction false} DurableFirst(steps: seq<Step>, j: nat)
    requires Legal(Boot, steps) && j < |Trace(Boot, steps)|
    ensures var tr := Trace(Boot, steps);
            tr[j].effect.ApplyEffect? ==>
              exists i :: 0 <= i < j && tr[i].effect == Intend(tr[j].effect.run, tr[j].effect.request)
    ensures var tr := Trace(Boot, steps);
            tr[j].effect.Close? ==> exists i :: 0 <= i < j && tr[i].epoch == tr[j].epoch && tr[i].effect.Decide?
  {
    hide Inv, Enabled, Apply, Effects, History;
    var tr := Trace(Boot, steps);
    var k := Locate(Boot, steps, j);
    var mid := After(Boot, steps[..k]);
    Reachable(steps[..k]);
    if tr[j].effect.ApplyEffect? {
      ApplyNeedsIntent(mid, steps[k], tr[j]);
      var i := Happened(steps[..k], IntentKey(tr[j].effect.run, tr[j].effect.request));
      assert tr[i] == tr[..j][i];
    } else if tr[j].effect.Close? {
      var p := CloseNeedsDecision(mid, steps[k], tr[j]);
      var i := Happened(steps[..k], DecideKey(tr[j].epoch, p));
      assert tr[i] == tr[..j][i];
    }
  }

  lemma {:induction false} Happened(steps: seq<Step>, k: Key) returns (i: nat)
    requires Legal(Boot, steps) && History(After(Boot, steps), k) > 0
    ensures i < |Trace(Boot, steps)| && KeyOf(Trace(Boot, steps)[i]) == k
  {
    hide Enabled, Apply, Effects, History;
    RunRecords(Boot, steps, k);
    BootHasNoHistory(k);
    i := Occurs(Trace(Boot, steps), k);
  }

  // ---- Nothing follows a clean marker or a decision -----------------------------

  lemma {:induction false} MarkerMeansChecked(s: State, step: Step)
    requires Enabled(s, step) && Effects(s, step) != [] && Effects(s, step)[0].effect.MarkClean?
    ensures s.life.cleanChecked && Apply(s, step).life.cleanChecked
    ensures Effects(s, step)[0].epoch == s.epoch == Apply(s, step).epoch
  {
  }

  /** Once a clean marker is recorded, no child of that epoch is started, resumed
      or controlled any more. */
  lemma {:induction false} CleanIsFinal(steps: seq<Step>, i: nat, j: nat)
    requires Legal(Boot, steps) && i < j < |Trace(Boot, steps)|
    requires Trace(Boot, steps)[i].effect.MarkClean? && Trace(Boot, steps)[j].epoch == Trace(Boot, steps)[i].epoch
    ensures LeavesChildrenAlone(Trace(Boot, steps)[j].effect)
  {
    hide Inv, Enabled, Apply, Effects;
    var tr := Trace(Boot, steps);
    var k := Locate(Boot, steps, i);
    var s := After(Boot, steps[..k]);
    Reachable(steps[..k]);
    StepKeeps(s, steps[k]);
    MarkerMeansChecked(s, steps[k]);
    AfterClean(Apply(s, steps[k]), steps[k + 1..]);
    assert tr[j] == tr[i + 1..][j - i - 1];
  }

  lemma {:induction false} DecisionCommits(s: State, step: Step)
    requires Enabled(s, step) && Effects(s, step) != [] && Effects(s, step)[0].effect.Decide?
    ensures var e, s' := Effects(s, step)[0], Apply(s, step);
            DecisionMade(s', e.effect.preview) && s'.life.shutdowns[e.effect.preview].purpose == e.effect.purpose
            && e.epoch == s.epoch == s'.epoch
  {
  }

  /** Once a shutdown decision is durable, its epoch starts and resumes no child
      and decides nothing else; after an update handoff it neither controls a
      child nor closes a terminal, because it owns none. */
  lemma {:induction false} DecisionIsFinal(steps: seq<Step>, i: nat, j: nat)
    requires Legal(Boot, steps) && i < j < |Trace(Boot, steps)|
    requires Trace(Boot, steps)[i].effect.Decide? && Trace(Boot, steps)[j].epoch == Trace(Boot, steps)[i].epoch
    ensures StartsNothing(Trace(Boot, steps)[j].effect)
    ensures Trace(Boot, steps)[i].effect.purpose.Update? ==> DoesNothing(Trace(Boot, steps)[j].effect)
  {
    hide Inv, Enabled, Apply, Effects;
    var tr := Trace(Boot, steps);
    var k := Locate(Boot, steps, i);
    var s := After(Boot, steps[..k]);
    Reachable(steps[..k]);
    StepKeeps(s, steps[k]);
    DecisionCommits(s, steps[k]);
    AfterDecision(Apply(s, steps[k]), steps[k + 1..], tr[i].effect.preview);
    assert tr[j] == tr[i + 1..][j - i - 1];
  }

  // ---- The clean marker is true -------------------------------------------------

  /** No launch or resume of this epoch ended with a possible unowned child, every
      owned child was waited for, and every exit is in the journal. */
  ghost predicate NothingLeft(s: State)
  {
    && (forall r :: r in s.own.runs ==> CleanRun(s.own.runs[r]))
    && (forall ref :: ref in s.own.launches ==> s.own.launches[ref].complete && !s.own.launches[ref].start.PossibleChild())
    && (forall id :: id in s.own.resumes ==> s.own.resumes[id].complete && !s.own.resumes[id].start.PossibleChild())
    && (forall ref :: ref in s.ctl.tickets ==> s.ctl.tickets[ref].phase == Done)
  }

  lemma {:induction false} LaunchesLeft(epoch: nat, o: Ownership)
    requires Conserved(o) && LaunchEntries(epoch, o) && ResumeEntries(epoch, o) && o.pending == 0 && o.active == 0
    ensures forall ref :: ref in o.launches ==> o.launches[ref].complete && !o.launches[ref].start.PossibleChild()
    ensures forall id :: id in o.resumes ==> o.resumes[id].complete && !o.resumes[id].start.PossibleChild()
  {
    CountZero(o.launches, HoldsLaunch);
    CountZero(o.resumes, HoldsResume);
    CountZero(o.runs, HoldsRun);
    assert forall ref :: ref in o.launches ==> LaunchEntry(epoch, o, ref);
    assert forall id :: id in o.resumes ==> ResumeEntry(epoch, o, id);
  }

  lemma {:induction false} CleanMeansNothingLeft(s: State)
    requires Inv(s) && Clean(s)
    ensures NothingLeft(s)
  {
    LaunchesLeft(s.epoch, s.own);
    CountZero(s.ctl.tickets, InFlight);
  }

  /** Whenever the marker is recorded it tells the truth, whatever an interleaving
      put between the check and the recording. */
  lemma {:induction false} CleanMarkerIsTrue(steps: seq<Step>, step: Step)
    requires Legal(Boot, steps) && Enabled(After(Boot, steps), step)
    requires Effects(After(Boot, steps), step) == [Event(After(Boot, steps).epoch, MarkClean)]
    ensures NothingLeft(After(Boot, steps)) && After(Boot, steps).gate.disabled
    ensures After(Boot, steps).own.pending == 0 && After(Boot, steps).own.active == 0 && After(Boot, steps).ctl.pending == 0
  {
    hide Enabled, Apply, Effects, OwnInv, CtlInv, NothingLeft;
    Reachable(steps);
    MarkerMeansChecked(After(Boot, steps), step);
    CleanMeansNothingLeft(After(Boot, steps));
  }
}
