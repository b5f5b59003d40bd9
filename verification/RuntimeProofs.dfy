/** The invariant holds in every state any interleaving can reach. */
module RuntimeProofs {
  import opened RuntimeState
  import opened LaunchSteps
  import opened ResumeSteps
  import opened ControlSteps
  import opened ShutdownSteps
  import opened LifecycleSteps
  import opened RuntimeMachine
  import opened OwnershipInvariants
  import opened ControlInvariants
  import opened LifecycleInvariants
  import opened LaunchProofs
  import opened ResumeProofs
  import opened ControlProofs
  import opened FrozenProofs
  import opened ShutdownProofs
  import opened LifecycleProofs
  import opened Counting

  lemma {:induction false} OwnershipStepKeeps(s: State, s': State)
    requires Inv(s) && s' == s.(own := s'.own, gate := s'.gate) && Later(s.gate, s'.gate)
    requires OwnInv(s.epoch, s'.own) && Grows(s.own, s'.own) && Quiet(s, s'.own)
    ensures Inv(s')
  {
    GrowthKeepsControls(s.epoch, s.own, s'.own, s.ctl);
    OwnershipKeepsLife(s, s');
  }

  lemma {:induction false} LaunchingKeeps(s: State, step: LaunchStep)
    requires Inv(s) && LaunchEnabled(s, step)
    ensures Inv(LaunchApply(s, step))
  {
    LaunchKeeps(s, step);
    LaunchGrows(s, step);
    if AdmissionClosed(s) && s.own.pending == 0 { QuietLaunch(s, step); }
    OwnershipStepKeeps(s, LaunchApply(s, step));
  }

  lemma {:induction false} ResumingKeeps(s: State, step: ResumeStep)
    requires Inv(s) && ResumeEnabled(s, step)
    ensures Inv(ResumeApply(s, step))
  {
    ResumeKeeps(s, step);
    ResumeGrows(s, step);
    if AdmissionClosed(s) && s.own.pending == 0 { QuietResume(s, step); }
    OwnershipStepKeeps(s, ResumeApply(s, step));
  }

  lemma {:induction false} ControllingKeeps(s: State, step: ControlStep)
    requires Inv(s) && ControlEnabled(s, step)
    ensures Inv(ControlApply(s, step))
  {
    ControlKeeps(s, step);
    ControlKeepsLife(s, step);
  }

  lemma {:induction false} ShuttingKeeps(s: State, step: ShutdownStep)
    requires Inv(s) && ShutdownEnabled(s, step)
    ensures Inv(ShutdownApply(s, step))
  {
    ShutdownKeeps(s, step);
  }

  lemma {:induction false} MaintainingKeeps(s: State, step: LifecycleStep)
    requires Inv(s) && LifecycleEnabled(s, step)
    ensures Inv(LifecycleApply(s, step))
  {
    LifecycleKeeps(s, step);
  }

  // ---- Crash ------------------------------------------------------------------

  lemma {:induction false} CrashKeepsOwnership(epoch: nat, o: Ownership)
    requires OwnInv(epoch, o)
    ensures OwnInv(epoch + 1, Ownership(0, 0, map[], map[], map[], map[], o.attempts, o.drawn, o.starts, o.resumed))
  {
  }

  lemma {:induction false} CrashKeepsControls(epoch: nat, o: Ownership, c: Controls)
    requires OwnInv(epoch, o) && CtlInv(epoch, o, c)
    ensures CtlInv(epoch + 1, Ownership(0, 0, map[], map[], map[], map[], o.attempts, o.drawn, o.starts, o.resumed),
                   Controls(0, map[], map[], c.intents, c.applied))
  {
  }

  lemma {:induction false} CrashKeepsLife(s: State)
    requires OwnInv(s.epoch, s.own) && LifeInv(s)
    ensures LifeInv(NewRuntime(s.epoch + 1, s.own, s.ctl, s.life))
  {
    hide Conserved, Bounded, LaunchEntries, Indexed, StartsCounted, ResumeEntries, AttemptsCounted, RunEntries;
  }

  lemma {:induction false} CrashKeeps(s: State)
    requires Inv(s)
    ensures Inv(NewRuntime(s.epoch + 1, s.own, s.ctl, s.life))
  {
    hide OwnInv, CtlInv, LifeInv;
    CrashKeepsOwnership(s.epoch, s.own);
    CrashKeepsControls(s.epoch, s.own, s.ctl);
    CrashKeepsLife(s);
  }

  // ---- Runs -------------------------------------------------------------------

  lemma {:induction false} StepKeeps(s: State, step: Step)
    requires Inv(s) && Enabled(s, step)
    ensures Inv(Apply(s, step))
  {
    hide Inv, LaunchApply, ResumeApply, ControlApply, ShutdownApply, LifecycleApply;
    hide LaunchEnabled, ResumeEnabled, ControlEnabled, ShutdownEnabled, LifecycleEnabled;
    match step
    case Launching(l) => LaunchingKeeps(s, l);
    case Resuming(r) => ResumingKeeps(s, r);
    case Controlling(c) => ControllingKeeps(s, c);
    case Shutting(d) => ShuttingKeeps(s, d);
    case Maintaining(u) => MaintainingKeeps(s, u);
    case Crash => CrashKeeps(s);
  }

  lemma {:induction false} RunKeeps(s: State, steps: seq<Step>)
    requires Inv(s) && Legal(s, steps)
    ensures Inv(After(s, steps))
    decreases |steps|
  {
    hide Inv, Enabled, Apply;
    if steps != [] {
      StepKeeps(s, steps[0]);
      RunKeeps(Apply(s, steps[0]), steps[1..]);
    }
  }

  lemma {:induction false} BootOwnership()
    ensures OwnInv(0, Boot.own)
  {
  }

  lemma {:induction false} BootControls()
    ensures CtlInv(0, Boot.own, Boot.ctl)
  {
  }

  lemma {:induction false} BootLifecycle()
    ensures LifeInv(Boot)
  {
  }

  lemma {:induction false} BootHolds()
    ensures Inv(Boot)
  {
    hide OwnInv, CtlInv, LifeInv;
    BootOwnership();
    BootControls();
    BootLifecycle();
  }

  /** Every run of the daemon, over any number of crashes, stays in order. */
  lemma {:induction false} Reachable(steps: seq<Step>)
    requires Legal(Boot, steps)
    ensures Inv(After(Boot, steps))
  {
    hide Inv, Enabled, Apply;
    BootHolds();
    RunKeeps(Boot, steps);
  }
}
