/** What every interleaving of stampers, guards, samplers and losses keeps. */
module GateProofs {
  import opened Options
  import opened ObservationContinuity
  import opened ObservationGate

  // ---- The invariant ----------------------------------------------------------

  /** Scopes are live only while evidence is; after closing nothing is. */
  predicate Fenced(g: Gate)
  {
    Grounded(g.continuity) && g.generation <= MAX_UINT64 && g.request <= MAX_UINT64
    && (g.live ==> g.continuity.state.available && !g.closed)
    && (g.closed ==> g.over && !g.continuity.state.available)
    && g.lost < g.now
  }

  /** The flight under way is the only one not done. */
  predicate SingleFlight(g: Gate)
  {
    (g.flight.Some? ==> g.flight.value == |g.flights| - 1 && !g.flights[g.flight.value].done)
    && forall f :: 0 <= f < |g.flights| && !g.flights[f].done ==> g.flight == Some(f)
  }

  /** A flight carries the request number of its start; one of the current
      generation was begun after the last loss. */
  predicate FlightAt(g: Gate, f: Flight)
  {
    f.request <= g.request && f.begun < g.now && f.generation <= g.generation
    && (f.generation == g.generation && !g.closed ==> g.lost <= f.begun)
    && (f.applied ==> f.done)
  }

  predicate Flights(g: Gate) { forall f :: 0 <= f < |g.flights| ==> FlightAt(g, g.flights[f]) }

  /** Request numbers order requests and flights: a flight with this request number
      or a later one was begun after the request. */
  predicate CallAt(g: Gate, c: Call)
  {
    c.asked < g.now && c.request <= g.request && (!c.phase.Failed? ==> c.request > 0)
    && (forall f :: 0 <= f < |g.flights| && g.flights[f].request >= c.request && c.request > 0 ==> g.flights[f].begun > c.asked)
    && match c.phase
       case Waiting => c.joins <= 1 && (c.joins == 1 && g.flight.Some? && g.flight.value < |g.flights| ==> g.flights[g.flight.value].request >= c.request)
       case Joined(f) => f < |g.flights| && 1 <= c.joins <= 2 && (c.joins == 2 ==> g.flights[f].request >= c.request)
                         && forall x :: f < x < |g.flights| ==> g.flights[x].request >= c.request
       case Refreshed(revision, f) =>
         f < |g.flights| && c.joins <= 2 && g.flights[f].applied && g.flights[f].request >= c.request && g.flights[f].revision == revision
       case Failed => c.joins <= 2
  }

  predicate Calls(g: Gate) { forall id :: id in g.calls ==> CallAt(g, g.calls[id]) }

  predicate Inv(g: Gate) { Fenced(g) && SingleFlight(g) && Flights(g) && Calls(g) }

  // ---- Steps --------------------------------------------------------------------

  /** Time passes, and evidence may be discarded, without touching a flight or call. */
  predicate Discards(g: Gate, g': Gate)
  {
    g'.flights == g.flights && g'.calls == g.calls && g'.flight == g.flight && g'.request == g.request && g'.now >= g.now
    && g.generation <= g'.generation
    && (g'.generation == g.generation && !g'.closed ==> g'.lost == g.lost && !g.closed)
  }

  lemma {:induction false} DiscardKeeps(g: Gate, g': Gate)
    requires SingleFlight(g) && Flights(g) && Calls(g) && Discards(g, g')
    ensures SingleFlight(g') && Flights(g') && Calls(g')
  {
    forall f | 0 <= f < |g'.flights| ensures FlightAt(g', g'.flights[f]) { assert FlightAt(g, g.flights[f]); }
    forall id | id in g'.calls ensures CallAt(g', g'.calls[id]) { assert CallAt(g, g.calls[id]); }
  }

  lemma {:induction false} LossFences(g: Gate)
    requires Fenced(g)
    ensures Fenced(Tick(FailClosed(g))) && Discards(g, Tick(FailClosed(g)))
    ensures Fenced(Tick(CloseGate(g))) && Discards(g, Tick(CloseGate(g)))
    ensures Fenced(Tick(g)) && Discards(g, Tick(g))
  {
  }

  lemma {:induction false} LossKeeps(g: Gate)
    requires Inv(g)
    ensures Inv(Tick(FailClosed(g))) && Inv(Tick(CloseGate(g))) && Inv(Tick(g))
  {
    LossFences(g);
    DiscardKeeps(g, Tick(FailClosed(g)));
    DiscardKeeps(g, Tick(CloseGate(g)));
    DiscardKeeps(g, Tick(g));
  }

  /** Steps that leave flights and request numbers alone keep other calls. */
  lemma {:induction false} SettleKeeps(g: Gate, id: CallId, phase: CallPhase)
    requires Inv(Tick(g)) && id in g.calls && CallAt(Tick(g), g.calls[id].(phase := phase))
    ensures Inv(Tick(Settle(g, id, phase)))
  {
    var h, h' := Tick(g), Tick(Settle(g, id, phase));
    forall q | q in h'.calls ensures CallAt(h', h'.calls[q]) {
      if q != id { assert CallAt(h, h.calls[q]); }
    }
  }

  lemma {:induction false} BeginKeeps(g: Gate, id: CallId, cancelled: bool)
    requires Inv(g) && id !in g.calls
    ensures Inv(Apply(g, DoBegin(id, cancelled)))
  {
    var g' := Apply(g, DoBegin(id, cancelled));
    forall f | 0 <= f < |g'.flights| ensures FlightAt(g', g'.flights[f]) { assert FlightAt(g, g.flights[f]); }
    forall q | q in g'.calls ensures CallAt(g', g'.calls[q]) {
      if q != id { assert CallAt(g, g.calls[q]); }
    }
  }

  lemma {:induction false} EnterKeeps(g: Gate, id: CallId)
    requires Inv(g) && id in g.calls && g.calls[id].phase == Waiting && !g.closed && !g.over
    ensures Inv(Tick(Enter(g, id, false)))
  {
    var g' := Tick(Enter(g, id, false));
    assert CallAt(g, g.calls[id]);
    forall f | 0 <= f < |g'.flights| ensures FlightAt(g', g'.flights[f]) {
      if f < |g.flights| { assert FlightAt(g, g.flights[f]); }
    }
    forall q | q in g'.calls ensures CallAt(g', g'.calls[q]) {
      assert CallAt(g, g.calls[q]);
    }
  }

  lemma {:induction false} WakeKeeps(g: Gate, id: CallId, expired: bool)
    requires Inv(g) && JoinedTo(g, id) && g.flights[g.calls[id].phase.flight].done
    ensures Inv(Tick(Wake(g, id, expired)))
  {
    var g' := Tick(Wake(g, id, expired));
    var c := g.calls[id];
    assert CallAt(g, c);
    assert forall f :: 0 <= f < |g.flights| ==> FlightAt(g, g.flights[f]);
    forall q | q in g'.calls ensures CallAt(g', g'.calls[q]) {
      assert CallAt(g, g.calls[q]);
    }
  }

  // ---- Sampling -------------------------------------------------------------------

  lemma {:induction false} SampleFences(g: Gate, sample: Sample)
    requires Fenced(g) && !g.closed
    ensures Fenced(Tick(ApplySample(g, sample))) && Discards(g, Tick(ApplySample(g, sample)))
  {
  }

  lemma {:induction false} SampleDiscards(g: Gate, sample: Sample)
    requires Inv(g)
    ensures !g.closed ==> Inv(Tick(ApplySample(g, sample))) && Discards(g, Tick(ApplySample(g, sample)))
  {
    if !g.closed {
      SampleFences(g, sample);
      DiscardKeeps(g, Tick(ApplySample(g, sample)));
    }
  }

  /** Finishing the flight under way. */
  lemma {:induction false} FinishKeeps(g: Gate, f: FlightId, applied: bool, revision: nat)
    requires Inv(g) && f < |g.flights| && !g.flights[f].done
    ensures Inv(g.(flight := None, flights := g.flights[f := g.flights[f].(done := true, applied := applied, revision := revision)]))
  {
    var g' := g.(flight := None, flights := g.flights[f := g.flights[f].(done := true, applied := applied, revision := revision)]);
    forall x | 0 <= x < |g'.flights| ensures FlightAt(g', g'.flights[x]) { assert FlightAt(g, g.flights[x]); }
    forall id | id in g'.calls ensures CallAt(g', g'.calls[id]) {
      assert CallAt(g, g.calls[id]);
      assert FlightAt(g, g.flights[f]);
    }
  }

  lemma {:induction false} Finishes(g: Gate, g': Gate, f: FlightId, applied: bool, revision: nat)
    requires Inv(Tick(g')) && g'.flights == g.flights && f < |g.flights| && !g.flights[f].done
    ensures Inv(Tick(g'.(flight := None, flights := g.flights[f := g.flights[f].(done := true, applied := applied, revision := revision)])))
  {
    FinishKeeps(Tick(g'), f, applied, revision);
  }

  lemma {:induction false} CompleteKeeps(g: Gate, f: FlightId, sample: Sample, expired: bool)
    requires Inv(g) && f < |g.flights| && !g.flights[f].done
    ensures Inv(Tick(Complete(g, f, sample, expired)))
  {
    LossKeeps(g);
    LossFences(g);
    SampleDiscards(g, sample);
    hide Inv, Tick, FailClosed, ApplySample, Fenced;
    if g.closed || g.over || g.flights[f].generation != g.generation {
      Finishes(g, g, f, false, 0);
    } else if expired {
      SameFlights(g, sample);
      Finishes(g, FailClosed(g), f, false, 0);
    } else {
      SameFlights(g, sample);
      var s := ApplySample(g, sample).continuity.state;
      Finishes(g, ApplySample(g, sample), f, s.available && !s.exhausted, s.revision);
    }
  }

  lemma {:induction false} SameFlights(g: Gate, sample: Sample)
    requires Grounded(g.continuity)
    ensures FailClosed(g).flights == g.flights == ApplySample(g, sample).flights
  {
  }

  lemma {:induction false} StepKeeps(g: Gate, step: Step)
    requires Inv(g) && Enabled(g, step)
    ensures Inv(Apply(g, step))
  {
    LossKeeps(g);
    OverKeeps(g);
    hide Inv, FailClosed, CloseGate, Complete, Wake, Begin, Settle;
    match step
    case DoBegin(id, cancelled) => BeginKeeps(g, id, cancelled);
    case DoEnter(id, expired) =>
      if g.closed || g.over || expired { FailKeeps(FailClosed(g), id); } else { EnterKeeps(g, id); }
    case DoTimeout(id) => FailKeeps(FailClosed(g), id);
    case DoNotice(id) => FailKeeps(g, id);
    case DoWake(id, expired) => WakeKeeps(g, id, expired);
    case DoComplete(f, sample, expired) => CompleteKeeps(g, f, sample, expired);
    case DoInvalidate =>
    case DoClose =>
    case DoEndLifetime =>
  }

  lemma {:induction false} OverKeeps(g: Gate)
    requires Inv(g)
    ensures Inv(Tick(g.(over := true)))
  {
    DiscardKeeps(g, Tick(g.(over := true)));
  }

  lemma {:induction false} FailKeeps(g: Gate, id: CallId)
    requires Inv(Tick(g)) && id in g.calls
    ensures Inv(Tick(Settle(g, id, Failed)))
  {
    assert CallAt(Tick(g), g.calls[id]);
    SettleKeeps(g, id, Failed);
  }

  lemma {:induction false} RunKeeps(g: Gate, steps: seq<Step>)
    requires Inv(g) && Legal(g, steps)
    ensures Inv(After(g, steps))
    decreases |steps|
  {
    hide Inv, Enabled, Apply;
    if steps != [] {
      StepKeeps(g, steps[0]);
      RunKeeps(Apply(g, steps[0]), steps[1..]);
    }
  }
}
