/** When a refresh, a stamp and a guard do succeed. */
module GateAnswers {
  import opened Options
  import opened ObservationContinuity
  import opened ObservationGate
  import opened GateProofs
  import opened GateTheorems

  // ---- What else every step keeps ---------------------------------------------------

  /** While evidence stands in an open gate its scope is live. */
  predicate Standing(g: Gate) { g.continuity.state.available && !g.closed ==> g.live }

  /** A flight of an older generation was begun before the last loss. */
  predicate Outdated(g: Gate) { forall f :: 0 <= f < |g.flights| && g.flights[f].generation < g.generation ==> g.flights[f].begun < g.lost }

  /** A flight with an older request number was begun before the request was made. */
  predicate Earlier(g: Gate)
  {
    forall id, f :: id in g.calls && 0 <= f < |g.flights| && g.flights[f].request < g.calls[id].request ==> g.flights[f].begun < g.calls[id].asked
  }

  predicate Ordered(g: Gate) { Standing(g) && Outdated(g) && Earlier(g) }

  lemma {:induction false} SampleStands(g: Gate, sample: Sample)
    requires Grounded(g.continuity) && Standing(g)
    ensures Standing(ApplySample(g, sample)) && Standing(FailClosed(g)) && Standing(CloseGate(g))
  {
  }

  /** Losing evidence outdates every flight so far. */
  lemma {:induction false} LossOrders(g: Gate)
    requires Grounded(g.continuity) && Flights(g) && Ordered(g)
    ensures Ordered(FailClosed(g)) && Ordered(CloseGate(g))
    ensures FailClosed(g).flights == g.flights && FailClosed(g).calls == g.calls
    ensures CloseGate(g).flights == g.flights && CloseGate(g).calls == g.calls
  {
    SampleStands(g, NoSample);
    forall f | 0 <= f < |g.flights| ensures g.flights[f].begun < g.now { assert FlightAt(g, g.flights[f]); }
  }

  lemma {:induction false} BeginOrders(g: Gate, id: CallId)
    requires Inv(g) && Ordered(g) && id !in g.calls
    ensures Ordered(Begin(g, id))
  {
    LossOrders(g);
    forall f | 0 <= f < |g.flights| ensures g.flights[f].begun < g.now { assert FlightAt(g, g.flights[f]); }
  }

  lemma {:induction false} RequestsBounded(g: Gate)
    requires Inv(g)
    ensures Grounded(g.continuity) && forall q :: q in g.calls ==> g.calls[q].request <= g.request
  {
    forall q | q in g.calls ensures g.calls[q].request <= g.request { assert CallAt(g, g.calls[q]); }
  }

  lemma {:induction false} EnterOrders(g: Gate, id: CallId, expired: bool)
    requires Inv(g) && Ordered(g) && id in g.calls && g.calls[id].phase == Waiting
    ensures Ordered(Enter(g, id, expired))
  {
    LossOrders(g);
    RequestsBounded(g);
    hide Inv, SingleFlight, Flights, Calls, FlightAt, CallAt, FailClosed;
  }

  lemma {:induction false} CompleteOrders(g: Gate, f: FlightId, sample: Sample, expired: bool)
    requires Inv(g) && Ordered(g) && f < |g.flights|
    ensures Ordered(Complete(g, f, sample, expired))
  {
    LossOrders(g);
    SampleStands(g, sample);
    hide Observe;
  }

  lemma {:induction false} StepOrders(g: Gate, step: Step)
    requires Inv(g) && Ordered(g) && Enabled(g, step)
    ensures Ordered(Apply(g, step))
  {
    hide Observe, SingleFlight, Calls, FlightAt, Begin, Enter, Complete, FailClosed, CloseGate;
    LossOrders(g);
    match step
    case DoBegin(id, cancelled) => if !cancelled { BeginOrders(g, id); }
    case DoEnter(id, expired) => EnterOrders(g, id, expired);
    case DoComplete(f, sample, expired) => CompleteOrders(g, f, sample, expired);
    case _ =>
  }

  lemma {:induction false} RunOrders(g: Gate, steps: seq<Step>)
    requires Inv(g) && Ordered(g) && Legal(g, steps)
    ensures Ordered(After(g, steps))
    decreases |steps|
  {
    hide Inv, Ordered, Enabled, Apply;
    if steps != [] {
      StepOrders(g, steps[0]);
      StepKeeps(g, steps[0]);
      RunOrders(Apply(g, steps[0]), steps[1..]);
    }
  }

  lemma {:induction false} GateReached(steps: seq<Step>)
    requires Legal(NewGate, steps)
    ensures Inv(After(NewGate, steps)) && Ordered(After(NewGate, steps))
  {
    hide Enabled, Apply;
    NewHolds();
    GateProofs.RunKeeps(NewGate, steps);
    RunOrders(NewGate, steps);
  }

  // ---- Answers ------------------------------------------------------------------------

  /** A joined flight that is done satisfies a refresh if and only if its sample was
      taken, was begun after the refresh was asked for and not before any later loss,
      and the gate and the caller's budget are open; a usable but older one sends the
      caller round again; anything else fails. */
  lemma {:induction false} RefreshIsExact(steps: seq<Step>, id: CallId, expired: bool)
    requires Legal(NewGate, steps) && Enabled(After(NewGate, steps), DoWake(id, expired))
    ensures var g := After(NewGate, steps);
            var c, f := g.calls[id], g.flights[g.calls[id].phase.flight];
            var usable := f.applied && f.begun >= g.lost && !g.closed && !g.over && !expired;
            Apply(g, DoWake(id, expired)).calls[id].phase
            == if usable && f.begun > c.asked then Refreshed(f.revision, c.phase.flight) else if usable then Waiting else Failed
  {
    hide Enabled, Apply;
    GateReached(steps);
    WakeIsExact(After(NewGate, steps), id, expired);
  }

  lemma {:induction false} WakeIsExact(g: Gate, id: CallId, expired: bool)
    requires Inv(g) && Ordered(g) && Enabled(g, DoWake(id, expired))
    ensures var c, f := g.calls[id], g.flights[g.calls[id].phase.flight];
            var usable := f.applied && f.begun >= g.lost && !g.closed && !g.over && !expired;
            Apply(g, DoWake(id, expired)).calls[id].phase
            == if usable && f.begun > c.asked then Refreshed(f.revision, c.phase.flight) else if usable then Waiting else Failed
  {
    assert CallAt(g, g.calls[id]) && FlightAt(g, g.flights[g.calls[id].phase.flight]);
  }

  /** A stamp is given if and only if the caller is still there and this revision is
      the available one of an open gate. */
  lemma {:induction false} StampIsExact(g: Gate, cancelled: bool, revision: nat)
    requires Inv(g) && Ordered(g)
    ensures Issue(g, cancelled, revision)
            == if !cancelled && !g.closed && !g.over && g.continuity.state.available && revision == g.continuity.state.revision
               then Some(Stamp(revision, g.scope)) else None
  {
  }

  /** As long as every sample is unbroken the scope stays. */
  lemma {:induction false} StepKeepsScope(g: Gate, step: Step)
    requires Enabled(g, step) && g.continuity.state.available && Unbroken(g.continuity.last, Applied(g, step))
    ensures Apply(g, step).scope == g.scope
  {
    SameRevisionMeansUnbroken(g.continuity, Applied(g, step));
    if Applied(g, step) != [] { assert ObserveAll(g.continuity, Applied(g, step)) == Observe(g.continuity, Applied(g, step)[0]); }
  }

  lemma {:induction false} ScopeStays(g: Gate, steps: seq<Step>)
    requires Grounded(g.continuity) && Legal(g, steps) && g.continuity.state.available
    requires Unbroken(g.continuity.last, AllApplied(g, steps))
    ensures After(g, steps).scope == g.scope
    decreases |steps|
  {
    hide Enabled, Apply, Applied, Observe;
    if steps != [] {
      var g', here, rest := Apply(g, steps[0]), Applied(g, steps[0]), AllApplied(Apply(g, steps[0]), steps[1..]);
      StepApplies(g, steps[0]);
      UnbrokenSplits(g.continuity, here, rest);
      StepKeepsScope(g, steps[0]);
      ScopeStays(g', steps[1..]);
    }
  }

  lemma {:induction false} UnbrokenSplits(c: Continuity, here: seq<Sample>, rest: seq<Sample>)
    requires Grounded(c) && c.state.available && |here| <= 1 && Unbroken(c.last, here + rest)
    ensures Unbroken(c.last, here)
    ensures var c' := if here == [] then c else Observe(c, here[0]); c'.state.available && Unbroken(c'.last, rest)
  {
    if here == [] { assert here + rest == rest; } else { assert (here + rest)[1..] == rest; }
  }

  /** A guard passes for a stamp if and only if the caller is still there, its refresh
      gave the stamp's revision, the gate is open, and every sample applied since the
      stamp was usable and followed the one before without a break. */
  lemma {:induction false} GuardIsExact(g: Gate, steps: seq<Step>, stamp: Stamp, revision: nat, cancelled: bool)
    requires Inv(g) && Ordered(g) && Legal(g, steps) && Issue(g, false, stamp.revision) == Some(stamp)
    ensures Guards(After(g, steps), cancelled, stamp, revision)
            <==> !cancelled && revision == stamp.revision && !After(g, steps).closed && !After(g, steps).over
                 && Unbroken(g.continuity.last, AllApplied(g, steps))
  {
    hide Enabled, Apply;
    var g' := After(g, steps);
    GateProofs.RunKeeps(g, steps);
    RunOrders(g, steps);
    RunApplies(g, steps);
    SameRevisionMeansUnbroken(g.continuity, AllApplied(g, steps));
    if Guards(g', cancelled, stamp, revision) { GuardMeansUnbroken(g, steps, stamp, revision, cancelled); }
    if Unbroken(g.continuity.last, AllApplied(g, steps)) { ScopeStays(g, steps); }
  }

  // ---- A refresh that succeeds ----------------------------------------------------------

  function RefreshRun(id: CallId, n: FlightId, sample: Sample): seq<Step>
  {
    [DoBegin(id, false)] + ([DoEnter(id, false)] + ([DoComplete(n, sample, false)] + ([DoWake(id, false)] + [])))
  }

  /** In an open, idle gate that is not exhausted, a caller whose sampler brings a usable
      sample in time gets its revision, and with it a stamp. */
  lemma {:induction false} RefreshSucceeds(g: Gate, id: CallId, sample: Sample)
    requires Inv(g) && Ordered(g) && !g.closed && !g.over && g.flight.None? && g.request < MAX_UINT64 && id !in g.calls
    requires Judge(sample).None? && !g.continuity.state.exhausted && g.continuity.state.revision < MAX_UINT64
    ensures var steps := RefreshRun(id, |g.flights|, sample);
            Legal(g, steps)
            && var g' := After(g, steps); var revision := g'.continuity.state.revision;
               id in g'.calls && g'.calls[id].phase == Refreshed(revision, |g.flights|)
               && Issue(g', false, revision) == Some(Stamp(revision, g'.scope))
  {
    var n := |g.flights|;
    TakesOff(g, id);
    var g1 := Apply(g, DoBegin(id, false));
    var g2 := Apply(g1, DoEnter(id, false));
    Lands(g2, id, n, sample);
    var g3 := Apply(g2, DoComplete(n, sample, false));
    hide Inv, Ordered, Enabled, Apply;
    Kept(g, DoBegin(id, false)); Kept(g1, DoEnter(id, false)); Kept(g2, DoComplete(n, sample, false)); Kept(g3, DoWake(id, false));
    StampIsExact(Apply(g3, DoWake(id, false)), false, Apply(g3, DoWake(id, false)).continuity.state.revision);
    Chain(g3, DoWake(id, false), []);
    Chain(g2, DoComplete(n, sample, false), [DoWake(id, false)] + []);
    Chain(g1, DoEnter(id, false), [DoComplete(n, sample, false)] + ([DoWake(id, false)] + []));
    Chain(g, DoBegin(id, false), [DoEnter(id, false)] + ([DoComplete(n, sample, false)] + ([DoWake(id, false)] + [])));
  }

  lemma {:induction false} Kept(g: Gate, step: Step)
    requires Inv(g) && Ordered(g) && Enabled(g, step)
    ensures Inv(Apply(g, step)) && Ordered(Apply(g, step))
  {
    hide Inv, Ordered, Enabled, Apply;
    StepKeeps(g, step);
    StepOrders(g, step);
  }

  /** A refresh in an idle gate starts a flight and joins it. */
  lemma {:induction false} TakesOff(g: Gate, id: CallId)
    requires Inv(g) && !g.closed && !g.over && g.flight.None? && g.request < MAX_UINT64 && id !in g.calls
    ensures Enabled(g, DoBegin(id, false)) && Enabled(Apply(g, DoBegin(id, false)), DoEnter(id, false))
    ensures var g2 := Apply(Apply(g, DoBegin(id, false)), DoEnter(id, false));
            Grounded(g2.continuity) && g2.continuity == g.continuity && !g2.closed && !g2.over && g2.generation == g.generation
            && g2.flights == g.flights + [Flight(g.request + 1, g.generation, g.now + 1, false, 0, false)]
            && id in g2.calls && g2.calls[id] == Call(g.request + 1, g.now, 1, Joined(|g.flights|))
  {
  }

  /** Its sample is taken, and the refresh wakes up to it. */
  lemma {:induction false} Lands(g: Gate, id: CallId, n: FlightId, sample: Sample)
    requires Grounded(g.continuity) && !g.closed && !g.over && n < |g.flights| && !g.flights[n].done && g.flights[n].generation == g.generation
    requires id in g.calls && g.calls[id].phase == Joined(n) && g.calls[id].request <= g.flights[n].request
    requires Judge(sample).None? && !g.continuity.state.exhausted && g.continuity.state.revision < MAX_UINT64
    ensures Enabled(g, DoComplete(n, sample, false)) && Enabled(Apply(g, DoComplete(n, sample, false)), DoWake(id, false))
    ensures var g' := Apply(Apply(g, DoComplete(n, sample, false)), DoWake(id, false));
            !g'.closed && !g'.over && g'.continuity.state.available
            && id in g'.calls && g'.calls[id].phase == Refreshed(g'.continuity.state.revision, n)
  {
    AvailableExactly(g.continuity, sample);
    hide Observe, Judge;
  }

  lemma {:induction false} Chain(g: Gate, step: Step, rest: seq<Step>)
    requires Enabled(g, step)
    ensures Legal(g, [step] + rest) <==> Legal(Apply(g, step), rest)
    ensures Legal(g, [step] + rest) ==> After(g, [step] + rest) == After(Apply(g, step), rest)
  {
    assert ([step] + rest)[1..] == rest;
  }
}
