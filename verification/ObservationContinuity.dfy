/** Continuity of the local watcher: a revision fences observation intake across
    sleep, watcher gaps, unreadable evidence and clock reversal. Times are
    nanoseconds; an absent time is the zero time. */
module ObservationContinuity {
  import opened Options

  const MAX_UINT64: nat := 0xFFFF_FFFF_FFFF_FFFF
  const MAX_GAP: int := 30_000_000_000

  /** A reading of the clock: the wall time, and the monotonic time if it has one. */
  datatype Reading = Reading(wall: int, mono: Option<int>)

  datatype Power = Power(sleep: Option<int>, wake: Option<int>)
  datatype Sample = Sample(at: Option<Reading>, power: Power, available: bool)

  datatype Reason = NoReason | CommunicationGap | SleepWake
  datatype State = State(revision: nat, available: bool, reason: Reason, exhausted: bool)
  datatype Continuity = Continuity(state: State, last: Sample, observed: bool)

  const NoSample := Sample(None, Power(None, None), false)
  const Closed := Continuity(State(1, false, NoReason, false), NoSample, false)

  /** A sample is usable, or the reason why not. */
  function Judge(s: Sample): Option<Reason>
  {
    if !s.available || s.at.None? then Some(CommunicationGap)
    else if s.power == Power(None, None) then None
    else if Foreign(s.power.sleep, s.at.value.wall) || Foreign(s.power.wake, s.at.value.wall) then Some(CommunicationGap)
    else if s.power.sleep.None? then Some(CommunicationGap)
    else if s.power.wake.None? || s.power.sleep.value > s.power.wake.value then Some(SleepWake)
    else None
  }

  /** A power stamp from before 1970 or from the future. */
  predicate Foreign(stamp: Option<int>, at: int) { stamp.Some? && (stamp.value < 0 || stamp.value > at) }

  function Elapsed(a: Reading, b: Reading): int
  {
    if a.mono.Some? && b.mono.Some? then b.mono.value - a.mono.value else b.wall - a.wall
  }

  /** Why two usable samples do not follow each other without a break. */
  function Discontinuity(last: Sample, next: Sample): Reason
    requires last.at.Some? && next.at.Some?
  {
    var elapsed, wall := Elapsed(last.at.value, next.at.value), next.at.value.wall - last.at.value.wall;
    if next.power != last.power then SleepWake
    else if elapsed < 0 || elapsed >= MAX_GAP || wall < 0 || wall >= MAX_GAP then CommunicationGap
    else NoReason
  }

  /** The next revision, or exhaustion for good at the last one. */
  function Advanced(s: State): State
  {
    if s.revision == MAX_UINT64 then s.(available := false, exhausted := true) else s.(revision := s.revision + 1)
  }

  /** A stored sample was usable, so an open fence has something to compare with. */
  predicate Grounded(c: Continuity)
  {
    c.state.revision <= MAX_UINT64 && (c.state.available ==> c.observed && Judge(c.last).None? && !c.state.exhausted)
  }

  function Observe(c: Continuity, sample: Sample): (c': Continuity)
    requires Grounded(c)
    ensures Grounded(c')
  {
    var judged := Judge(sample);
    if c.state.exhausted then c
    else if judged.Some? then
      var s := if c.state.available then Advanced(c.state) else c.state;
      if s.exhausted then c.(state := s)
      else
        var keep := s.reason != NoReason && c.observed && !c.state.available && judged.value != SleepWake;
        c.(state := s.(available := false, reason := if keep then s.reason else judged.value), observed := true)
    else if !c.observed then Continuity(c.state.(available := true), sample, true)
    else if !c.state.available then
      var s := Advanced(c.state);
      if s.exhausted then c.(state := s)
      else
        var woke := c.last.at.Some? && sample.power != c.last.power;
        Continuity(s.(available := true, reason := if woke then SleepWake else s.reason), sample, true)
    else
      var reason := Discontinuity(c.last, sample);
      if reason == NoReason then c.(last := sample)
      else
        var s := Advanced(c.state);
        if s.exhausted then c.(state := s) else Continuity(s.(available := true, reason := reason), sample, true)
  }

  function ObserveAll(c: Continuity, samples: seq<Sample>): (c': Continuity)
    requires Grounded(c)
    ensures Grounded(c')
    decreases |samples|
  {
    if samples == [] then c else ObserveAll(Observe(c, samples[0]), samples[1..])
  }

  /** Every sample is usable and follows the one before without a break. */
  predicate Unbroken(last: Sample, samples: seq<Sample>)
    decreases |samples|
  {
    samples == []
    || (Judge(samples[0]).None? && last.at.Some? && Discontinuity(last, samples[0]) == NoReason && Unbroken(samples[0], samples[1..]))
  }

  lemma {:induction false} RevisionsGrow(c: Continuity, samples: seq<Sample>)
    requires Grounded(c)
    ensures c.state.revision <= ObserveAll(c, samples).state.revision
    ensures c.state.exhausted ==> ObserveAll(c, samples) == c
    decreases |samples|
  {
    if samples != [] { RevisionsGrow(Observe(c, samples[0]), samples[1..]); }
  }

  /** Once lost, the same revision is never available again. */
  lemma {:induction false} LostRevision(c: Continuity, samples: seq<Sample>, revision: nat)
    requires Grounded(c) && c.observed && revision <= c.state.revision && (c.state.available ==> revision < c.state.revision)
    ensures var c' := ObserveAll(c, samples); !(c'.state.available && c'.state.revision == revision)
    decreases |samples|
  {
    if samples != [] { LostRevision(Observe(c, samples[0]), samples[1..], revision); }
  }

  /** An open fence keeps its revision exactly as long as every sample is usable and
      follows the one before without sleep, gap or clock reversal. */
  lemma {:induction false} SameRevisionMeansUnbroken(c: Continuity, samples: seq<Sample>)
    requires Grounded(c) && c.state.available
    ensures ObserveAll(c, samples).state.available && ObserveAll(c, samples).state.revision == c.state.revision
            <==> Unbroken(c.last, samples)
    decreases |samples|
  {
    if samples != [] {
      var c' := Observe(c, samples[0]);
      if c'.state.available && c'.state.revision == c.state.revision {
        SameRevisionMeansUnbroken(c', samples[1..]);
      } else {
        LostRevision(c', samples[1..], c.state.revision);
      }
    }
  }

  /** A sample is usable exactly when it was taken, read a clock, and saw either no
      power event or a sleep and a wake in order, neither before 1970 nor in the future. */
  lemma {:induction false} UsableExactly(s: Sample)
    ensures Judge(s).None?
            <==> s.available && s.at.Some?
                 && ((s.power.sleep.None? && s.power.wake.None?)
                     || (s.power.sleep.Some? && s.power.wake.Some? && 0 <= s.power.sleep.value <= s.power.wake.value <= s.at.value.wall))
  {
  }

  /** After an observation continuity is available exactly when the sample is usable and
      the revision could move if it had to; it has to unless the sample is the first one
      ever or goes on without a break. */
  lemma {:induction false} AvailableExactly(c: Continuity, sample: Sample)
    requires Grounded(c)
    ensures Observe(c, sample).state.available
            <==> Judge(sample).None? && !c.state.exhausted
                 && (c.state.revision < MAX_UINT64 || !c.observed || (c.state.available && Discontinuity(c.last, sample) == NoReason))
  {
  }
}
