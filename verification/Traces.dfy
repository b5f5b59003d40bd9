/** The native calls and durable commitments of a run, in the order they happen. */
module Traces {
  import opened RuntimeState
  import opened LaunchSteps
  import opened ResumeSteps
  import opened ControlSteps
  import opened ShutdownSteps
  import opened LifecycleSteps
  import opened RuntimeMachine

  datatype Effect =
    | Start(request: RequestId)                        // native start of a launch
    | NativeResume(request: RequestId)                 // native resume of a conversation
    | Intend(run: RunId, request: RequestId)           // a control's durable intent committed
    | ApplyEffect(run: RunId, request: RequestId)      // a control's native effect
    | Decide(preview: PreviewId, purpose: Purpose)     // a shutdown reservation became durable
    | Close(run: RunId)                                // a terminal was closed
    | MarkClean                                        // the clean marker was recorded

  datatype Event = Event(epoch: nat, effect: Effect)

  /** The effect of one step; every other step has none outside the owner. */
  function Effects(s: State, step: Step): seq<Event>
    requires Enabled(s, step)
  {
    match step
    case Launching(DoCallStart(ref, _)) => [Event(s.epoch, Start(s.own.launches[ref].request.id))]
    case Resuming(DoCallResume(id, _)) => [Event(s.epoch, NativeResume(id))]
    case Controlling(DoReserveIntent(ref, CommittedIntent)) =>
      [Event(s.epoch, Intend(s.ctl.tickets[ref].run, s.ctl.tickets[ref].intent.id))]
    case Controlling(DoApplyControl(ref, _)) =>
      [Event(s.epoch, ApplyEffect(s.ctl.tickets[ref].run, s.ctl.tickets[ref].intent.id))]
    case Shutting(DoCommitShutdown(p)) => [Event(s.epoch, Decide(p, s.life.shutdowns[p].purpose))]
    case Shutting(DoCloseTerminal(_, run, _)) => [Event(s.epoch, Close(run))]
    case Maintaining(DoRecordClean) => [Event(s.epoch, MarkClean)]
    case _ => []
  }

  function Trace(s: State, steps: seq<Step>): seq<Event>
    requires Legal(s, steps)
    decreases |steps|
  {
    if steps == [] then [] else Effects(s, steps[0]) + Trace(Apply(s, steps[0]), steps[1..])
  }

  // ---- What may happen once -----------------------------------------------

  /** The things of which there may be one: a start per request and epoch, a
      native resume per request in any epoch, an intent and an effect per run and
      request, a decision per preview, and one closing of a run's terminal. */
  datatype Key =
    | StartKey(epoch: nat, request: RequestId)
    | ResumeKey(request: RequestId)
    | IntentKey(run: RunId, request: RequestId)
    | ApplyKey(run: RunId, request: RequestId)
    | DecideKey(epoch: nat, preview: PreviewId)
    | CloseKey(run: RunId)
    | CleanKey(epoch: nat)

  function KeyOf(e: Event): Key
  {
    match e.effect
    case Start(id) => StartKey(e.epoch, id)
    case NativeResume(id) => ResumeKey(id)
    case Intend(run, id) => IntentKey(run, id)
    case ApplyEffect(run, id) => ApplyKey(run, id)
    case Decide(p, _) => DecideKey(e.epoch, p)
    case Close(run) => CloseKey(run)
    case MarkClean => CleanKey(e.epoch)
  }

  function Occurrences(tr: seq<Event>, k: Key): nat
  {
    if tr == [] then 0 else (if KeyOf(tr[0]) == k then 1 else 0) + Occurrences(tr[1..], k)
  }

  /** How often the state says that a thing happened. */
  function History(s: State, k: Key): nat
  {
    match k
    case StartKey(epoch, id) => s.own.starts[(epoch, id)]
    case ResumeKey(id) => s.own.resumed[id]
    case IntentKey(run, id) => s.ctl.intents[(run, id)]
    case ApplyKey(run, id) => s.ctl.applied[(run, id)]
    case DecideKey(epoch, p) => s.life.decided[(epoch, p)]
    case CloseKey(run) => s.life.closed[run]
    case CleanKey(epoch) => s.life.cleaned[epoch]
  }

  // ---- Facts about traces ---------------------------------------------------

  lemma {:induction false} OccurrencesSplit(a: seq<Event>, b: seq<Event>, k: Key)
    ensures Occurrences(a + b, k) == Occurrences(a, k) + Occurrences(b, k)
    decreases |a|
  {
    if a == [] {
      assert a + b == b;
    } else {
      assert (a + b)[1..] == a[1..] + b;
      OccurrencesSplit(a[1..], b, k);
    }
  }

  lemma {:induction false} Occurs(tr: seq<Event>, k: Key) returns (i: nat)
    requires Occurrences(tr, k) > 0
    ensures i < |tr| && KeyOf(tr[i]) == k
  {
    if KeyOf(tr[0]) == k {
      i := 0;
    } else {
      i := Occurs(tr[1..], k);
      i := i + 1;
    }
  }

  lemma {:induction false} TwiceCounts(tr: seq<Event>, i: nat, j: nat)
    requires i < j < |tr| && KeyOf(tr[i]) == KeyOf(tr[j])
    ensures Occurrences(tr, KeyOf(tr[i])) >= 2
  {
    var k := KeyOf(tr[i]);
    assert tr == tr[..j] + tr[j..];
    assert tr[..j] == tr[..i] + tr[i..j];
    OccurrencesSplit(tr[..j], tr[j..], k);
    OccurrencesSplit(tr[..i], tr[i..j], k);
  }

  lemma {:induction false} LaunchRecords(s: State, step: LaunchStep, k: Key)
    requires LaunchEnabled(s, step)
    ensures History(LaunchApply(s, step), k) == History(s, k) + Occurrences(Effects(s, Launching(step)), k)
  {
  }

  lemma {:induction false} ResumeRecords(s: State, step: ResumeStep, k: Key)
    requires ResumeEnabled(s, step)
    ensures History(ResumeApply(s, step), k) == History(s, k) + Occurrences(Effects(s, Resuming(step)), k)
  {
  }

  function ControlKey(c: Controls, ref: Ref): (RunId, RequestId)
    requires ref in c.tickets
  {
    (c.tickets[ref].run, c.tickets[ref].intent.id)
  }

  lemma {:induction false} ControlCounts(s: State, step: ControlStep)
    requires ControlEnabled(s, step)
    ensures ControlControls(s, step).applied ==
            s.ctl.applied + if step.DoApplyControl? then multiset{ControlKey(s.ctl, step.ref)} else multiset{}
    ensures ControlControls(s, step).intents ==
            s.ctl.intents
            + if step.DoReserveIntent? && step.answer == CommittedIntent then multiset{ControlKey(s.ctl, step.ref)} else multiset{}
  {
  }

  lemma {:induction false} ControlRecords(s: State, step: ControlStep, k: Key)
    requires ControlEnabled(s, step)
    ensures History(ControlApply(s, step), k) == History(s, k) + Occurrences(Effects(s, Controlling(step)), k)
  {
    ControlCounts(s, step);
    hide ControlControls, ControlSignals;
  }

  lemma {:induction false} ShutdownRecords(s: State, step: ShutdownStep, k: Key)
    requires ShutdownEnabled(s, step)
    ensures History(ShutdownApply(s, step), k) == History(s, k) + Occurrences(Effects(s, Shutting(step)), k)
  {
  }

  lemma {:induction false} LifecycleRecords(s: State, step: LifecycleStep, k: Key)
    requires LifecycleEnabled(s, step)
    ensures History(LifecycleApply(s, step), k) == History(s, k) + Occurrences(Effects(s, Maintaining(step)), k)
  {
  }

  lemma {:induction false} StepRecords(s: State, step: Step, k: Key)
    requires Enabled(s, step)
    ensures History(Apply(s, step), k) == History(s, k) + Occurrences(Effects(s, step), k)
  {
    hide LaunchApply, ResumeApply, ControlApply, ShutdownApply, LifecycleApply;
    hide LaunchEnabled, ResumeEnabled, ControlEnabled, ShutdownEnabled, LifecycleEnabled;
    match step
    case Launching(l) => LaunchRecords(s, l, k);
    case Resuming(r) => ResumeRecords(s, r, k);
    case Controlling(c) => ControlRecords(s, c, k);
    case Shutting(d) => ShutdownRecords(s, d, k);
    case Maintaining(u) => LifecycleRecords(s, u, k);
    case Crash =>
  }

  /** The state's histories are exactly the trace. */
  lemma {:induction false} RunRecords(s: State, steps: seq<Step>, k: Key)
    requires Legal(s, steps)
    ensures History(After(s, steps), k) == History(s, k) + Occurrences(Trace(s, steps), k)
    decreases |steps|
  {
    hide Enabled, Apply, Effects, History;
    if steps != [] {
      StepRecords(s, steps[0], k);
      RunRecords(Apply(s, steps[0]), steps[1..], k);
      OccurrencesSplit(Effects(s, steps[0]), Trace(Apply(s, steps[0]), steps[1..]), k);
    }
  }

  /** The step of a run that causes the j-th event of its trace. */
  lemma {:induction false} Locate(s: State, steps: seq<Step>, j: nat) returns (k: nat)
    requires Legal(s, steps) && j < |Trace(s, steps)|
    ensures k < |steps| && Legal(s, steps[..k])
    ensures var mid := After(s, steps[..k]);
            Enabled(mid, steps[k]) && Effects(mid, steps[k]) == [Trace(s, steps)[j]]
            && Legal(Apply(mid, steps[k]), steps[k + 1..])
    ensures Trace(s, steps[..k]) == Trace(s, steps)[..j]
    ensures Trace(Apply(After(s, steps[..k]), steps[k]), steps[k + 1..]) == Trace(s, steps)[j + 1..]
    decreases |steps|
  {
    hide Enabled, Apply, Effects;
    SingleEffect(s, steps[0]);
    var here, next := Effects(s, steps[0]), Apply(s, steps[0]);
    if j < |here| {
      k := 0;
      assert steps[..0] == [];
    } else {
      var k' := Locate(next, steps[1..], j - |here|);
      k := k' + 1;
      assert steps[..k][1..] == steps[1..][..k'];
      assert steps[k + 1..] == steps[1..][k' + 1..];
    }
  }

  lemma {:induction false} SingleEffect(s: State, step: Step)
    requires Enabled(s, step)
    ensures |Effects(s, step)| <= 1
  {
  }
}
