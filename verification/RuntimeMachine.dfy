/** Every interleaving of the daemon: one atomic step is one lock section or one
    call of an external port, taken by any goroutine that stands before it. The
    answers of ports, cancellation and crashes are free. */
module RuntimeMachine {
  import opened Options
  import opened RuntimeState
  import opened LaunchSteps
  import opened ResumeSteps
  import opened ControlSteps
  import opened ShutdownSteps
  import opened LifecycleSteps

  datatype Step =
    | Launching(launch: LaunchStep)
    | Resuming(resume: ResumeStep)
    | Controlling(control: ControlStep)
    | Shutting(shutdown: ShutdownStep)
    | Maintaining(lifecycle: LifecycleStep)
    | Crash

  predicate Enabled(s: State, step: Step)
  {
    match step
    case Launching(l) => LaunchEnabled(s, l)
    case Resuming(r) => ResumeEnabled(s, r)
    case Controlling(c) => ControlEnabled(s, c)
    case Shutting(d) => ShutdownEnabled(s, d)
    case Maintaining(u) => LifecycleEnabled(s, u)
    case Crash => true
  }

  /** A crash loses everything but the journal; a new daemon has a new epoch. */
  function Apply(s: State, step: Step): State
    requires Enabled(s, step)
  {
    match step
    case Launching(l) => LaunchApply(s, l)
    case Resuming(r) => ResumeApply(s, r)
    case Controlling(c) => ControlApply(s, c)
    case Shutting(d) => ShutdownApply(s, d)
    case Maintaining(u) => LifecycleApply(s, u)
    case Crash => NewRuntime(s.epoch + 1, s.own, s.ctl, s.life)
  }

  /** Running steps one after another from a state. */
  predicate Legal(s: State, steps: seq<Step>)
    decreases |steps|
  {
    steps == [] || (Enabled(s, steps[0]) && Legal(Apply(s, steps[0]), steps[1..]))
  }

  function After(s: State, steps: seq<Step>): State
    requires Legal(s, steps)
    decreases |steps|
  {
    if steps == [] then s else After(Apply(s, steps[0]), steps[1..])
  }

  const Boot := State(0, Gate(false, false, 0),
    Ownership(0, 0, map[], map[], map[], map[], map[], map[], multiset{}, multiset{}),
    Controls(0, map[], map[], multiset{}, multiset{}),
    Lifecycle(false, false, false, false, false, 0, None, map[], map[], None, false, multiset{}, multiset{}, multiset{}))
}
