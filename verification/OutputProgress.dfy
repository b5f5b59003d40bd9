/** Who keeps a subscription, and what a reader gets when it reads on. */
module OutputProgress {
  import opened Options
  import opened ByteLog
  import opened OutputFanout

  /** The log takes these bytes. */
  predicate Takes(o: Output, p: seq<byte>)
  {
    !o.ended && |p| <= MAX_OUTPUT_CHUNK && |o.history| + |p| <= MAX_OFFSET
  }

  /** An append the log takes grows the history and keeps attached exactly the
      subscribers whose unread bytes are affordable at the new head; the others learn
      from where to where they missed output. Any other append changes nothing. */
  lemma {:induction false} AppendIsExact(o: Output, p: seq<byte>, id: SubId)
    requires Inv(o)
    ensures !Takes(o, p) ==> Append(o, p) == o
    ensures Takes(o, p) ==>
              var o', head := Append(o, p), |o.history| + |p|;
              o'.history == o.history + p && o'.attached <= o.attached && o'.subs.Keys == o.subs.Keys
              && (id in o.attached ==> (id in o'.attached <==> Affordable(o.subs[id], head, o.pending)))
              && (id in o.subs ==>
                    o'.subs[id] == if id in o.attached && id !in o'.attached then o.subs[id].(detached := Some(Gap(o.subs[id].cursor, head)))
                                   else o.subs[id])
  {
    if id in o.subs { assert SubOk(o, id, o.subs[id]); }
  }

  // ---- Keeping a subscription -----------------------------------------------------

  /** At every append of a run the subscriber, while attached, can be afforded. */
  ghost predicate AlwaysAffordable(o: Output, steps: seq<Step>, id: SubId)
    requires Legal(o, steps) && id in o.subs
    decreases |steps|
  {
    steps == []
    || (Affords(o, steps[0], id)
        && id in Apply(o, steps[0]).subs && AlwaysAffordable(Apply(o, steps[0]), steps[1..], id))
  }

  /** No step of a run closes the subscription or hands it the end. */
  ghost predicate StaysOpen(o: Output, steps: seq<Step>, id: SubId)
    requires Legal(o, steps) && id in o.subs
    decreases |steps|
  {
    steps == []
    || (steps[0] != DoClose(id) && (steps[0] == DoNext(id) ==> !Ready(o, o.subs[id]).value.End?)
        && id in Apply(o, steps[0]).subs && StaysOpen(Apply(o, steps[0]), steps[1..], id))
  }

  /** Nothing of it was called slow. */
  predicate NotSlow(s: Sub) { s.detached.None? && forall f :: f in s.frames && f.Missing? ==> f.cause != SlowConsumer }

  ghost predicate Affords(o: Output, step: Step, id: SubId)
    requires id in o.subs
  {
    step.DoAppend? && Takes(o, step.p) && id in o.attached ==> Affordable(o.subs[id], |o.history| + |step.p|, o.pending)
  }

  lemma {:induction false} StepAttaches(o: Output, step: Step, id: SubId)
    requires Inv(o) && Enabled(o, step) && id in o.subs
    ensures var o' := Apply(o, step);
            id in o'.subs && (id in o'.attached ==> id in o.attached)
            && (id in o.attached ==>
                  (id in o'.attached <==>
                     Affords(o, step, id) && step != DoClose(id) && (step == DoNext(id) ==> !Ready(o, o.subs[id]).value.End?)))
  {
    assert SubOk(o, id, o.subs[id]);
    hide Inv, SubOk, Affordable;
    if step.DoAppend? { AppendIsExact(o, step.p, id); }
  }

  lemma {:induction false} StepSlows(o: Output, step: Step, id: SubId)
    requires Inv(o) && Enabled(o, step) && id in o.subs && NotSlow(o.subs[id]) && Affords(o, step, id)
    ensures id in Apply(o, step).subs && NotSlow(Apply(o, step).subs[id])
  {
    if step.DoAppend? {
      hide Affordable, Append;
      AppendIsExact(o, step.p, id);
    } else if step == DoNext(id) {
      HandedStays(o, id);
    }
  }

  lemma {:induction false} HandedStays(o: Output, id: SubId)
    requires Open(o, id) && Ready(o, o.subs[id]).Some? && NotSlow(o.subs[id])
    ensures NotSlow(Next(o, id).subs[id])
  {
  }

  lemma {:induction false} OnceGone(o: Output, steps: seq<Step>, id: SubId)
    requires Inv(o) && Legal(o, steps) && id in o.subs && id !in o.attached
    ensures id !in After(o, steps).attached
    decreases |steps|
  {
    hide Inv, Enabled, Apply;
    if steps != [] {
      StepAttaches(o, steps[0], id);
      StepKeeps(o, steps[0]);
      OnceGone(Apply(o, steps[0]), steps[1..], id);
    }
  }

  /** An attached subscriber is still attached after a run if and only if it could be
      afforded at every append, was not closed, and did not reach its end. */
  lemma {:induction false} AttachedExactly(o: Output, steps: seq<Step>, id: SubId)
    requires Inv(o) && Legal(o, steps) && id in o.attached
    ensures id in o.subs && (id in After(o, steps).attached <==> AlwaysAffordable(o, steps, id) && StaysOpen(o, steps, id))
    decreases |steps|
  {
    assert id in o.subs;
    hide Inv, Enabled, Apply, Ready, Affordable, Takes;
    if steps != [] {
      StepAttaches(o, steps[0], id);
      StepKeeps(o, steps[0]);
      if id in Apply(o, steps[0]).attached {
        AttachedExactly(Apply(o, steps[0]), steps[1..], id);
      } else {
        OnceGone(Apply(o, steps[0]), steps[1..], id);
      }
    }
  }

  /** A subscriber that could always be afforded is never told that it was slow. */
  lemma {:induction false} NeverCalledSlow(o: Output, steps: seq<Step>, id: SubId)
    requires Inv(o) && Legal(o, steps) && id in o.subs && NotSlow(o.subs[id]) && AlwaysAffordable(o, steps, id)
    ensures id in After(o, steps).subs && NotSlow(After(o, steps).subs[id])
    decreases |steps|
  {
    hide Inv, Enabled, Apply, NotSlow, Affordable, Takes;
    if steps != [] {
      StepSlows(o, steps[0], id);
      StepKeeps(o, steps[0]);
      NeverCalledSlow(Apply(o, steps[0]), steps[1..], id);
    }
  }

  // ---- Reading on -------------------------------------------------------------------

  function Reads(id: SubId, n: nat): (steps: seq<Step>)
    ensures |steps| == n
  {
    if n == 0 then [] else [DoNext(id)] + Reads(id, n - 1)
  }

  /** How many frames a reader may still need. */
  function Ahead(o: Output, s: Sub): int { |o.history| - s.cursor + (if s.initial then 0 else 1) + (if s.tailSent then 0 else 1) }

  lemma {:induction false} ReadAdvances(o: Output, id: SubId)
    requires Inv(o) && Open(o, id) && Ready(o, o.subs[id]).Some?
    ensures var o' := Next(o, id);
            id in o'.subs && o'.history == o.history && o'.ended == o.ended && o'.limit == o.limit && o'.unknown == o.unknown
            && (o'.subs[id].closed || 0 <= Ahead(o', o'.subs[id]) < Ahead(o, o.subs[id]))
            && (o'.subs[id].closed ==> Last(o'.subs[id]).Some? && Final(Last(o'.subs[id]).value))
  {
    assert SubOk(o, id, o.subs[id]);
    hide Tiled, Covered, Affordable, SubOk, Inv;
  }

  /** A reader that reads on without new output gets everything there is: it is closed
      with its last frame, or has caught up with a log that is not finished. */
  lemma {:induction false} ReaderCatchesUp(o: Output, id: SubId) returns (n: nat)
    requires Inv(o) && Open(o, id)
    ensures Legal(o, Reads(id, n))
    ensures var o' := After(o, Reads(id, n));
            id in o'.subs && o'.history == o.history
            && var s := o'.subs[id];
            if s.closed then Last(s).Some? && Final(Last(s).value) else !o.ended && s.initial && s.cursor == |o.history|
    decreases Ahead(o, o.subs[id]) + 1
  {
    assert SubOk(o, id, o.subs[id]);
    hide Tiled, Covered, Affordable;
    if Ready(o, o.subs[id]).None? {
      n := 0;
    } else {
      ReadAdvances(o, id);
      NextKeeps(o, id);
      var o' := Next(o, id);
      hide Inv, SubOk, Ready, Next;
      if o'.subs[id].closed {
        n := 1;
        assert Reads(id, 1)[1..] == Reads(id, 0) == [];
      } else {
        var m := ReaderCatchesUp(o', id);
        n := m + 1;
        assert Reads(id, n)[1..] == Reads(id, m);
      }
    }
  }

  /** What an attached reader that has its snapshot is handed next: the range that is no
      longer retained, or else as much as a frame holds of what is, or else, at the head
      of a finished log, first that its tail is unknown if it is, and then the end. */
  lemma {:induction false} ReadyExactly(o: Output, id: SubId)
    requires Inv(o) && Open(o, id) && o.subs[id].initial && o.subs[id].detached.None?
    ensures var s, head := o.subs[id], |o.history|; var base := if head > o.limit then head - o.limit else 0;
            Ready(o, s)
            == if s.cursor < base then Some(Missing(head, Gap(s.cursor, base), Evicted))
               else if s.cursor < head then
                 var end := if s.cursor + MAX_OUTPUT_CHUNK <= head then s.cursor + MAX_OUTPUT_CHUNK else head;
                 Some(Data(head, s.cursor, end, o.history[s.cursor..end]))
               else if !o.ended then None
               else if o.unknown && !s.tailSent then Some(Missing(head, Gap(head, head), Tail))
               else Some(End(head))
  {
    assert SubOk(o, id, o.subs[id]);
    hide Tiled, Covered;
  }

  // ---- The tail ---------------------------------------------------------------------------

  predicate TailTold(s: Sub) { exists f :: f in s.frames && f.Missing? && f.cause == Tail }

  /** A tail is told only of a log finished with an unknown one, and before its end. */
  predicate TailOk(o: Output, s: Sub)
  {
    (s.tailSent <==> TailTold(s)) && (s.tailSent ==> o.ended && o.unknown)
    && (Last(s).Some? && Last(s).value.End? ==> o.ended && (o.unknown <==> s.tailSent))
  }

  ghost predicate Tails(o: Output) { forall id :: id in o.subs ==> TailOk(o, o.subs[id]) }

  lemma {:induction false} HandedTail(o: Output, id: SubId)
    requires Inv(o) && Open(o, id) && Ready(o, o.subs[id]).Some? && TailOk(o, o.subs[id])
    ensures TailOk(o, Next(o, id).subs[id])
  {
    assert SubOk(o, id, o.subs[id]);
    var s, s' := o.subs[id], Next(o, id).subs[id];
    hide Tiled, Covered;
    if TailTold(s) {
      var f :| f in s.frames && f.Missing? && f.cause == Tail;
      assert f in s'.frames;
    }
    assert s'.frames[|s.frames|] == Ready(o, s).value;
  }

  lemma {:induction false} StepTails(o: Output, step: Step)
    requires Inv(o) && Tails(o) && Enabled(o, step)
    ensures Tails(Apply(o, step))
  {
    match step
    case DoNext(id) => HandedTail(o, id); hide TailOk, Ready; SameTails(o, id);
    case DoAppend(p) => AppendTails(o, p);
    case DoFinish(unknown) => assert forall id :: id in o.subs ==> SubOk(o, id, o.subs[id]);
    case _ =>
  }

  lemma {:induction false} SameTails(o: Output, id: SubId)
    requires Tails(o) && Open(o, id) && Ready(o, o.subs[id]).Some? && TailOk(o, Next(o, id).subs[id])
    ensures Tails(Next(o, id))
  {
    var o' := Next(o, id);
    forall q | q in o'.subs && q != id ensures TailOk(o', o'.subs[q]) { assert TailOk(o, o.subs[q]); }
  }

  lemma {:induction false} AppendTails(o: Output, p: seq<byte>)
    requires Inv(o) && Tails(o)
    ensures Tails(Append(o, p))
  {
    var o' := Append(o, p);
    forall q | q in o'.subs ensures TailOk(o', o'.subs[q]) { assert TailOk(o, o.subs[q]) && o'.subs[q].frames == o.subs[q].frames; }
  }

  lemma {:induction false} RunTails(o: Output, steps: seq<Step>)
    requires Inv(o) && Tails(o) && Legal(o, steps)
    ensures Tails(After(o, steps))
    decreases |steps|
  {
    hide Inv, Tails, Enabled, Apply;
    if steps != [] {
      StepTails(o, steps[0]);
      StepKeeps(o, steps[0]);
      RunTails(Apply(o, steps[0]), steps[1..]);
    }
  }

  /** The first finish decides, and nothing after it changes what it said. */
  lemma {:induction false} FinishDecides(o: Output, unknown: bool, steps: seq<Step>)
    requires Legal(Finish(o, unknown), steps)
    ensures After(Finish(o, unknown), steps).ended
    ensures After(Finish(o, unknown), steps).unknown == if o.ended then o.unknown else unknown
  {
    EndedStays(Finish(o, unknown), steps);
  }

  lemma {:induction false} EndedStays(o: Output, steps: seq<Step>)
    requires Legal(o, steps) && o.ended
    ensures After(o, steps).ended && After(o, steps).unknown == o.unknown && After(o, steps).history == o.history
    decreases |steps|
  {
    if steps != [] {
      assert Apply(o, steps[0]).ended && Apply(o, steps[0]).unknown == o.unknown && Apply(o, steps[0]).history == o.history;
      hide Enabled, Apply;
      EndedStays(Apply(o, steps[0]), steps[1..]);
    }
  }

  /** A reader that was handed the end was told before of an unknown tail exactly when
      the log was finished with one. */
  lemma {:induction false} TailIsTold(limit: nat, pending: nat, steps: seq<Step>, id: SubId)
    requires Legal(NewOutput(limit, pending), steps) && id in After(NewOutput(limit, pending), steps).subs
    ensures var o := After(NewOutput(limit, pending), steps); var s := o.subs[id];
            (TailTold(s) ==> o.ended && o.unknown) && (Last(s).Some? && Last(s).value.End? ==> (TailTold(s) <==> o.unknown))
  {
    RunTails(NewOutput(limit, pending), steps);
  }

  /** A closed subscription gets nothing more. */
  lemma {:induction false} ClosedIsSilent(o: Output, steps: seq<Step>, id: SubId)
    requires Inv(o) && Legal(o, steps) && id in o.subs && o.subs[id].closed
    ensures id in After(o, steps).subs && After(o, steps).subs[id] == o.subs[id]
    decreases |steps|
  {
    if steps != [] {
      ClosedStep(o, steps[0], id);
      StepKeeps(o, steps[0]);
      hide Inv, Enabled, Apply;
      ClosedIsSilent(Apply(o, steps[0]), steps[1..], id);
    }
  }

  lemma {:induction false} ClosedStep(o: Output, step: Step, id: SubId)
    requires Inv(o) && Enabled(o, step) && id in o.subs && o.subs[id].closed
    ensures id in Apply(o, step).subs && Apply(o, step).subs[id] == o.subs[id]
  {
    assert SubOk(o, id, o.subs[id]);
    hide Ready, Tiled, Covered;
  }

  lemma {:induction false} CloseIsFinal(o: Output, id: SubId)
    requires id in o.subs
    ensures id in Close(o, id).subs && Close(o, id).subs[id] == o.subs[id].(closed := true)
  {
  }
}
