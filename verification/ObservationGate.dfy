/** The gate that issues and guards observation stamps. Samples are taken outside its
    lock by one sampler at a time; a step is one lock section of some caller, of the
    sampler, or of an owner of the gate. */
module ObservationGate {
  import opened Options
  import opened ObservationContinuity

  type FlightId = nat
  type CallId = nat

  /** One sample in the making. `begun` is when it was started. */
  datatype Flight = Flight(request: nat, generation: nat, begun: nat, applied: bool, revision: nat, done: bool)

  datatype CallPhase = Waiting | Joined(flight: FlightId) | Refreshed(revision: nat, taken: FlightId) | Failed

  /** A refresh in progress: its request number, when it was asked, and how many
      flights it has joined. */
  datatype Call = Call(request: nat, asked: nat, joins: nat, phase: CallPhase)

  /** `over` is the end of the gate's lifetime context; `scope` numbers the intake
      scopes, of which only the last can be live. `now` counts steps and `lost` is
      when evidence was last discarded. */
  datatype Gate = Gate(
    continuity: Continuity, over: bool, scope: nat, live: bool,
    flight: Option<FlightId>, flights: seq<Flight>,
    request: nat, generation: nat, closed: bool,
    calls: map<CallId, Call>, now: nat, lost: nat)

  datatype Stamp = Stamp(revision: nat, scope: nat)

  const NewGate := Gate(Closed, false, 0, false, None, [], 0, 0, false, map[], 1, 0)

  predicate ScopeLive(g: Gate) { g.live && !g.over }

  function CloseGate(g: Gate): Gate
    requires Grounded(g.continuity)
  {
    if g.closed then g
    else g.(closed := true, over := true, live := false, continuity := Observe(g.continuity, NoSample), lost := g.now)
  }

  function ApplySample(g: Gate, sample: Sample): Gate
    requires Grounded(g.continuity)
  {
    var after := Observe(g.continuity, sample);
    var renewed := after.state.available
                   && (!g.continuity.state.available || g.continuity.state.revision != after.state.revision);
    g.(continuity := after, live := if renewed then true else g.live && after.state.available,
       scope := if renewed then g.scope + 1 else g.scope)
  }

  /** Discards every sample begun before this loss, even a healthy one. */
  function FailClosed(g: Gate): Gate
    requires Grounded(g.continuity)
  {
    if g.closed then g
    else if g.generation == MAX_UINT64 then CloseGate(g)
    else ApplySample(g.(generation := g.generation + 1, lost := g.now), NoSample)
  }

  function Settle(g: Gate, id: CallId, phase: CallPhase): Gate
    requires id in g.calls
  {
    g.(calls := g.calls[id := g.calls[id].(phase := phase)])
  }

  // ---- Refresh ------------------------------------------------------------------

  function Begin(g: Gate, id: CallId): Gate
    requires Grounded(g.continuity)
  {
    if g.closed || g.over || g.request == MAX_UINT64 then
      var g' := CloseGate(g);
      g'.(calls := g'.calls[id := Call(0, g.now, 0, Failed)])
    else g.(request := g.request + 1, calls := g.calls[id := Call(g.request + 1, g.now, 0, Waiting)])
  }

  /** Joins the flight under way, or starts one with the latest request number. */
  function Enter(g: Gate, id: CallId, expired: bool): Gate
    requires Grounded(g.continuity) && id in g.calls
  {
    if g.closed || g.over || expired then Settle(FailClosed(g), id, Failed)
    else
      var c := g.calls[id];
      var f := if g.flight.Some? then g.flight.value else |g.flights|;
      g.(flight := Some(f),
         flights := if g.flight.Some? then g.flights else g.flights + [Flight(g.request, g.generation, g.now, false, 0, false)],
         calls := g.calls[id := c.(phase := Joined(f), joins := c.joins + 1)])
  }

  /** The joined flight completed. An older one cannot attest this request. */
  function Wake(g: Gate, id: CallId, expired: bool): Gate
    requires id in g.calls && g.calls[id].phase.Joined? && g.calls[id].phase.flight < |g.flights|
  {
    var c := g.calls[id];
    var f := g.flights[c.phase.flight];
    Settle(g, id,
           if !f.applied || f.generation != g.generation || g.closed || g.over || expired then Failed
           else if f.request >= c.request then Refreshed(f.revision, c.phase.flight)
           else Waiting)
  }

  /** The sampler returned; `expired` says that its own budget had run out. */
  function Complete(g: Gate, f: FlightId, sample: Sample, expired: bool): Gate
    requires Grounded(g.continuity) && f < |g.flights|
  {
    var counts := !g.closed && !g.over && g.flights[f].generation == g.generation;
    var g' := if !counts then g else if expired then FailClosed(g) else ApplySample(g, sample);
    var s := g'.continuity.state;
    var took := counts && !expired;
    g'.(flight := None,
        flights := g.flights[f := g.flights[f].(done := true, applied := took && s.available && !s.exhausted,
                                                revision := if took then s.revision else 0)])
  }

  // ---- Stamps -------------------------------------------------------------------

  predicate Current(g: Gate, revision: nat)
  {
    var s := g.continuity.state;
    !g.closed && !g.over && s.available && !s.exhausted && s.revision == revision && ScopeLive(g)
  }

  /** The stamp a caller gets whose refresh returned this revision. */
  function Issue(g: Gate, cancelled: bool, revision: nat): Option<Stamp>
  {
    if cancelled || !Current(g, revision) then None else Some(Stamp(revision, g.scope))
  }

  /** Whether the guarded callback runs after a refresh returned this revision. */
  predicate Guards(g: Gate, cancelled: bool, stamp: Stamp, revision: nat)
  {
    revision == stamp.revision && !cancelled && Current(g, revision) && stamp.scope == g.scope && ScopeLive(g)
  }

  // ---- Steps --------------------------------------------------------------------

  datatype Step =
    | DoBegin(call: CallId, cancelled: bool)
    | DoEnter(call: CallId, expired: bool)
    | DoTimeout(call: CallId)
    | DoNotice(call: CallId)
    | DoWake(call: CallId, expired: bool)
    | DoComplete(flight: FlightId, sample: Sample, expired: bool)
    | DoInvalidate
    | DoClose
    | DoEndLifetime

  predicate JoinedTo(g: Gate, id: CallId) { id in g.calls && g.calls[id].phase.Joined? && g.calls[id].phase.flight < |g.flights| }

  predicate Enabled(g: Gate, step: Step)
  {
    Grounded(g.continuity)
    && match step
       case DoBegin(id, _) => id !in g.calls
       case DoEnter(id, _) => id in g.calls && g.calls[id].phase == Waiting
       case DoTimeout(id) => JoinedTo(g, id)
       case DoNotice(id) => JoinedTo(g, id) && g.over
       case DoWake(id, _) => JoinedTo(g, id) && g.flights[g.calls[id].phase.flight].done
       case DoComplete(f, _, _) => f < |g.flights| && !g.flights[f].done
       case _ => true
  }

  function Tick(g: Gate): Gate { g.(now := g.now + 1) }

  function Apply(g: Gate, step: Step): Gate
    requires Enabled(g, step)
  {
    Tick(match step
         case DoBegin(id, cancelled) => if cancelled then g.(calls := g.calls[id := Call(0, g.now, 0, Failed)]) else Begin(g, id)
         case DoEnter(id, expired) => Enter(g, id, expired)
         case DoTimeout(id) => Settle(FailClosed(g), id, Failed)
         case DoNotice(id) => Settle(g, id, Failed)
         case DoWake(id, expired) => Wake(g, id, expired)
         case DoComplete(f, sample, expired) => Complete(g, f, sample, expired)
         case DoInvalidate => FailClosed(g)
         case DoClose => CloseGate(g)
         case DoEndLifetime => g.(over := true))
  }

  predicate Legal(g: Gate, steps: seq<Step>)
    decreases |steps|
  {
    steps == [] || (Enabled(g, steps[0]) && Legal(Apply(g, steps[0]), steps[1..]))
  }

  function After(g: Gate, steps: seq<Step>): Gate
    requires Legal(g, steps)
    decreases |steps|
  {
    if steps == [] then g else After(Apply(g, steps[0]), steps[1..])
  }
}
