/** The gate object: one method for each section under its lock, proved to be the
    step of the state machine it stands for. */
module GateOwner {
  import opened Options
  import opened ObservationContinuity
  import G = ObservationGate

  class ObservationGate {
    var continuity: Continuity
    var over: bool
    var scope: nat
    var live: bool
    var flight: Option<G.FlightId>
    var flights: seq<G.Flight>
    var request: nat
    var generation: nat
    var closed: bool
    var calls: map<G.CallId, G.Call>

    // When things happened; nothing the gate decides depends on it.
    var now: nat
    var lost: nat

    ghost function State(): G.Gate
      reads this
    {
      G.Gate(continuity, over, scope, live, flight, flights, request, generation, closed, calls, now, lost)
    }

    constructor ()
      ensures State() == G.NewGate
    {
      continuity, over, scope, live := Closed, false, 0, false;
      flight, flights, request, generation, closed, calls := None, [], 0, 0, false, map[];
      now, lost := 1, 0;
    }

    method ApplySample(sample: Sample)
      requires Grounded(continuity)
      modifies `continuity, `live, `scope
      ensures State() == G.ApplySample(old(State()), sample)
    {
      var before := continuity.state;
      continuity := Observe(continuity, sample);
      var after := continuity.state;
      if !after.available {
        live := false;
      } else if !before.available || before.revision != after.revision {
        scope := scope + 1;
        live := true;
      }
    }

    method CloseLocked()
      requires Grounded(continuity)
      modifies `closed, `over, `live, `continuity, `lost
      ensures State() == G.CloseGate(old(State()))
    {
      if !closed {
        closed := true;
        over := true;
        live := false;
        continuity := Observe(continuity, NoSample);
        lost := now;
      }
    }

    method FailClosed()
      requires Grounded(continuity)
      modifies `closed, `over, `live, `scope, `continuity, `generation, `lost
      ensures State() == G.FailClosed(old(State()))
    {
      if closed { return; }
      if generation == MAX_UINT64 {
        CloseLocked();
        return;
      }
      generation := generation + 1;
      lost := now;
      ApplySample(NoSample);
    }

    // ---- Refresh ----------------------------------------------------------------

    method Begin(id: G.CallId)
      requires Grounded(continuity)
      modifies this
      ensures State() == G.Begin(old(State()), id)
    {
      if closed || over || request == MAX_UINT64 {
        CloseLocked();
        calls := calls[id := G.Call(0, now, 0, G.Failed)];
        return;
      }
      request := request + 1;
      calls := calls[id := G.Call(request, now, 0, G.Waiting)];
    }

    /** One turn of the refresh loop up to its wait. */
    method Enter(id: G.CallId, expired: bool)
      requires Grounded(continuity) && id in calls && (flight.Some? ==> flight.value < |flights|)
      modifies this
      ensures State() == G.Enter(old(State()), id, expired)
    {
      if closed || over || expired {
        FailClosed();
        calls := calls[id := calls[id].(phase := G.Failed)];
        return;
      }
      if flight.None? {
        flight := Some(|flights|);
        flights := flights + [G.Flight(request, generation, now, false, 0, false)];
      }
      calls := calls[id := calls[id].(phase := G.Joined(flight.value), joins := calls[id].joins + 1)];
    }

    /** The caller's budget ran out while it waited. */
    method Timeout(id: G.CallId)
      requires Grounded(continuity) && id in calls
      modifies this
      ensures State() == G.Settle(G.FailClosed(old(State())), id, G.Failed)
    {
      FailClosed();
      calls := calls[id := calls[id].(phase := G.Failed)];
    }

    /** The joined flight is done: fail, succeed, or go round once more. */
    method Wake(id: G.CallId, expired: bool)
      requires G.JoinedTo(State(), id)
      modifies `calls
      ensures State() == G.Wake(old(State()), id, expired)
    {
      var joined := calls[id].phase.flight;
      var f := flights[joined];
      if !f.applied || f.generation != generation || closed || over || expired {
        calls := calls[id := calls[id].(phase := G.Failed)];
      } else if f.request >= calls[id].request {
        calls := calls[id := calls[id].(phase := G.Refreshed(f.revision, joined))];
      } else {
        calls := calls[id := calls[id].(phase := G.Waiting)];
      }
    }

    /** The sampler returned, perhaps late. */
    method Complete(f: G.FlightId, sample: Sample, expired: bool)
      requires Grounded(continuity) && f < |flights|
      modifies this
      ensures State() == G.Complete(old(State()), f, sample, expired)
    {
      var t := flights[f].(done := true, applied := false, revision := 0);
      if !closed && !over && flights[f].generation == generation {
        if expired {
          FailClosed();
        } else {
          ApplySample(sample);
          t := t.(applied := continuity.state.available && !continuity.state.exhausted, revision := continuity.state.revision);
        }
      }
      flight := None;
      flights := flights[f := t];
    }

    // ---- Stamps -----------------------------------------------------------------

    method IsCurrent(cancelled: bool, revision: nat) returns (yes: bool)
      ensures yes == (!cancelled && G.Current(State(), revision))
    {
      var s := continuity.state;
      yes := !closed && !cancelled && !over && s.available && !s.exhausted && s.revision == revision && live;
    }

    /** The section of a stamp after its refresh. */
    method Issue(cancelled: bool, revision: nat) returns (stamp: Option<G.Stamp>)
      ensures stamp == G.Issue(State(), cancelled, revision)
    {
      var current := IsCurrent(cancelled, revision);
      if !current { return None; }
      stamp := Some(G.Stamp(revision, scope));
    }

    /** The section of a guard after its refresh: whether the callback runs. */
    method Guard(cancelled: bool, stamp: G.Stamp, revision: nat) returns (runs: bool)
      ensures runs == G.Guards(State(), cancelled, stamp, revision)
    {
      var current := IsCurrent(cancelled, revision);
      if revision != stamp.revision || !current || stamp.scope != scope || !live || over { return false; }
      runs := true;
    }
  }
}
