/** What stamps and refreshes mean, for every interleaving of callers, late samplers
    and losses. */
module GateTheorems {
  import opened Options
  import opened ObservationContinuity
  import opened ObservationGate
  import opened GateProofs

  // ---- One sampler, two flights ---------------------------------------------------

  lemma {:induction false} NewHolds()
    ensures Inv(NewGate)
  {
  }

  /** At most one sampler is in flight, and no refresh joins more than two. */
  lemma {:induction false} SamplersAreBounded(steps: seq<Step>, f: FlightId, f': FlightId, id: CallId)
    requires Legal(NewGate, steps)
    ensures var g := After(NewGate, steps);
            f < |g.flights| && f' < |g.flights| && !g.flights[f].done && !g.flights[f'].done ==> f == f'
    ensures var g := After(NewGate, steps); id in g.calls ==> g.calls[id].joins <= 2
  {
    NewHolds();
    RunKeeps(NewGate, steps);
    var g := After(NewGate, steps);
    if id in g.calls { assert CallAt(g, g.calls[id]); }
  }

  // ---- Freshness ------------------------------------------------------------------

  /** A refresh that succeeds returns the revision of a sample that was begun after
      the refresh was asked for and after the last loss of evidence. */
  lemma {:induction false} RefreshIsFresh(steps: seq<Step>, id: CallId, expired: bool)
    requires Legal(NewGate, steps) && Enabled(After(NewGate, steps), DoWake(id, expired))
    requires Apply(After(NewGate, steps), DoWake(id, expired)).calls[id].phase.Refreshed?
    ensures var g := After(NewGate, steps);
            var c, f := g.calls[id], g.flights[g.calls[id].phase.flight];
            Apply(g, DoWake(id, expired)).calls[id].phase.revision == f.revision
            && f.done && f.applied && f.begun > c.asked && f.begun >= g.lost && !g.closed && !g.over && !expired
  {
    NewHolds();
    RunKeeps(NewGate, steps);
    var g := After(NewGate, steps);
    assert CallAt(g, g.calls[id]) && FlightAt(g, g.flights[g.calls[id].phase.flight]);
  }

  // ---- Closing --------------------------------------------------------------------

  lemma {:induction false} ClosedStep(g: Gate, step: Step)
    requires Inv(g) && Enabled(g, step) && g.closed
    ensures Apply(g, step).closed
    ensures forall id :: id in Apply(g, step).calls && Apply(g, step).calls[id].phase.Refreshed? ==> id in g.calls && g.calls[id].phase.Refreshed?
  {
  }

  /** After closing, every refresh fails, no stamp is issued and no guard passes. */
  lemma {:induction false} NothingAfterClose(g: Gate, steps: seq<Step>)
    requires Inv(g) && Legal(g, steps) && g.closed
    ensures var g' := After(g, steps);
            g'.closed
            && (forall id :: id in g'.calls && g'.calls[id].phase.Refreshed? ==> id in g.calls && g.calls[id].phase.Refreshed?)
            && (forall cancelled, revision :: Issue(g', cancelled, revision) == None)
            && (forall cancelled, stamp, revision :: !Guards(g', cancelled, stamp, revision))
    decreases |steps|
  {
    hide Inv, Enabled, Apply;
    if steps != [] {
      ClosedStep(g, steps[0]);
      StepKeeps(g, steps[0]);
      NothingAfterClose(Apply(g, steps[0]), steps[1..]);
    }
  }

  // ---- Revocation -----------------------------------------------------------------

  /** No evidence was discarded and the fence did not move. */
  predicate Intact(g: Gate, g': Gate)
  {
    g'.continuity.state.available && g'.continuity.state.revision == g.continuity.state.revision
    && g'.generation == g.generation && !g'.closed && !g'.over
  }

  predicate SameScope(g: Gate, g': Gate) { g'.scope == g.scope && ScopeLive(g') }

  lemma {:induction false} ScopeStep(g: Gate, step: Step)
    requires Inv(g) && Enabled(g, step)
    ensures Apply(g, step).scope >= g.scope
    ensures SameScope(g, Apply(g, step)) ==> ScopeLive(g) && Intact(g, Apply(g, step))
  {
    hide SingleFlight, Flights, Calls;
  }

  lemma {:induction false} ScopesGrow(g: Gate, steps: seq<Step>)
    requires Inv(g) && Legal(g, steps)
    ensures After(g, steps).scope >= g.scope
    ensures SameScope(g, After(g, steps)) ==> ScopeLive(g) && Intact(g, After(g, steps))
    decreases |steps|
  {
    hide Inv, Enabled, Apply;
    if steps == [] {
      LiveIsIntact(g);
    } else {
      ScopeStep(g, steps[0]);
      StepKeeps(g, steps[0]);
      ScopesGrow(Apply(g, steps[0]), steps[1..]);
    }
  }

  lemma {:induction false} LiveIsIntact(g: Gate)
    requires Inv(g)
    ensures ScopeLive(g) ==> Intact(g, g)
  {
  }

  // ---- Samples --------------------------------------------------------------------

  function LossSamples(g: Gate): seq<Sample> { if g.closed then [] else [NoSample] }

  /** The samples a step feeds to the continuity, real ones and losses. */
  function Applied(g: Gate, step: Step): seq<Sample>
    requires Enabled(g, step)
  {
    match step
    case DoBegin(_, cancelled) => if !cancelled && (g.closed || g.over || g.request == MAX_UINT64) then LossSamples(g) else []
    case DoEnter(_, expired) => if g.closed || g.over || expired then LossSamples(g) else []
    case DoTimeout(_) => LossSamples(g)
    case DoComplete(f, sample, expired) =>
      if g.closed || g.over || g.flights[f].generation != g.generation then []
      else if expired then LossSamples(g) else [sample]
    case DoInvalidate => LossSamples(g)
    case DoClose => LossSamples(g)
    case _ => []
  }

  function AllApplied(g: Gate, steps: seq<Step>): seq<Sample>
    requires Legal(g, steps)
    decreases |steps|
  {
    if steps == [] then [] else Applied(g, steps[0]) + AllApplied(Apply(g, steps[0]), steps[1..])
  }

  lemma {:induction false} StepApplies(g: Gate, step: Step)
    requires Enabled(g, step)
    ensures |Applied(g, step)| <= 1 && Grounded(Apply(g, step).continuity)
    ensures Apply(g, step).continuity == if Applied(g, step) == [] then g.continuity else Observe(g.continuity, Applied(g, step)[0])
  {
  }

  lemma {:induction false} RunApplies(g: Gate, steps: seq<Step>)
    requires Grounded(g.continuity) && Legal(g, steps)
    ensures Grounded(After(g, steps).continuity) && After(g, steps).continuity == ObserveAll(g.continuity, AllApplied(g, steps))
    decreases |steps|
  {
    hide Enabled, Apply, Applied, Grounded;
    if steps != [] {
      var here, rest := Applied(g, steps[0]), AllApplied(Apply(g, steps[0]), steps[1..]);
      StepApplies(g, steps[0]);
      RunApplies(Apply(g, steps[0]), steps[1..]);
      if here == [] { assert here + rest == rest; } else { assert (here + rest)[1..] == rest; }
    }
  }

  /** A guard passes for a stamp only if, since the stamp was issued, the gate was
      neither closed nor invalidated, its lifetime went on, and every sample it
      applied was usable and followed the one before without sleep, gap or clock
      reversal. */
  lemma {:induction false} GuardMeansUnbroken(g: Gate, steps: seq<Step>, stamp: Stamp, revision: nat, cancelled: bool)
    requires Inv(g) && Legal(g, steps)
    requires Issue(g, false, stamp.revision) == Some(stamp) && Guards(After(g, steps), cancelled, stamp, revision)
    ensures Intact(g, After(g, steps)) && !cancelled && revision == g.continuity.state.revision
    ensures Unbroken(g.continuity.last, AllApplied(g, steps))
  {
    hide Enabled, Apply;
    ScopesGrow(g, steps);
    RunApplies(g, steps);
    SameRevisionMeansUnbroken(g.continuity, AllApplied(g, steps));
  }
}
