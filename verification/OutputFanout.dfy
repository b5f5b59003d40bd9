/** The bounded output fan-out: a producer that never waits, and subscribers that read
    at their own pace until they fall behind. */
module OutputFanout {
  import opened Options
  import opened ByteLog
  import C = Counting

  const MAX_SUBSCRIBERS: nat := 4
  const MAX_PENDING: nat := 256 * 1024

  type SubId = nat

  datatype Cause = Evicted | SlowConsumer | Tail
  datatype Gap = Gap(from: nat, to: nat)

  /** What a subscriber is handed; `head` is the end of the log at that moment. */
  datatype Frame =
    | Snapshot(head: nat)
    | Data(head: nat, start: nat, end: nat, bytes: seq<byte>)
    | Missing(head: nat, gap: Gap, cause: Cause)
    | End(head: nat)

  /** `from` and `frames` record where it started and what it was handed. */
  datatype Sub = Sub(
    cursor: nat, attachHead: nat, initial: bool, closed: bool, tailSent: bool, detached: Option<Gap>,
    from: nat, frames: seq<Frame>)

  datatype Output = Output(
    history: seq<byte>, limit: nat, pending: nat, ended: bool, unknown: bool,
    subs: map<SubId, Sub>, attached: set<SubId>)

  /** The wire cost of unread bytes: base64 and JSON framing per chunk. */
  function PendingCost(n: nat): nat
  {
    if n == 0 then 0 else (n + 2) / 3 * 4 + 2048 * ((n + MAX_OUTPUT_CHUNK - 1) / MAX_OUTPUT_CHUNK) + 2048
  }

  lemma {:induction false} CostMonotone(a: nat, b: nat)
    requires a <= b
    ensures PendingCost(a) <= PendingCost(b)
  {
    assert (a + 2) / 3 <= (b + 2) / 3;
    assert (a + MAX_OUTPUT_CHUNK - 1) / MAX_OUTPUT_CHUNK <= (b + MAX_OUTPUT_CHUNK - 1) / MAX_OUTPUT_CHUNK;
  }

  function Unread(s: Sub, head: nat): int { head - Max(s.cursor, s.attachHead) }

  /** What has not been read is within the bounds. */
  predicate Affordable(s: Sub, head: nat, pending: nat)
  {
    0 <= Unread(s, head) <= MAX_PENDING && PendingCost(Unread(s, head)) <= pending
  }

  predicate TooSlow(s: Sub, head: nat, pending: nat)
  {
    Unread(s, head) > MAX_PENDING || (Unread(s, head) >= 0 && PendingCost(Unread(s, head)) > pending)
  }

  // ---- Operations ---------------------------------------------------------------

  function Detach(s: Sub, head: nat): Sub { s.(detached := Some(Gap(s.cursor, head))) }

  /** The producer's append: slow subscribers lose their subscription, not the bytes
      their cursor still names. */
  function Append(o: Output, p: seq<byte>): Output
    requires o.attached <= o.subs.Keys
  {
    if o.ended || AppendReply(|o.history|, p).Err? then o
    else
      var head := |o.history| + |p|;
      o.(history := o.history + p,
         subs := map id | id in o.subs ::
           if id in o.attached && TooSlow(o.subs[id], head, o.pending) then Detach(o.subs[id], head) else o.subs[id],
         attached := set id | id in o.attached && !TooSlow(o.subs[id], head, o.pending))
  }

  function Finish(o: Output, unknown: bool): Output
  {
    if o.ended then o else o.(ended := true, unknown := unknown)
  }

  datatype Admission = Refused(error: Error) | Admitted

  function SubscribeReply(o: Output, cursor: nat): Admission
  {
    if cursor > |o.history| then Refused(ErrCursor)
    else if |o.attached| >= MAX_SUBSCRIBERS then Refused(ErrLimit)
    else Admitted
  }

  function Subscribe(o: Output, id: SubId, cursor: nat): Output
  {
    o.(subs := o.subs[id := Sub(cursor, |o.history|, false, false, false, None, cursor, [])], attached := o.attached + {id})
  }

  function Close(o: Output, id: SubId): Output
    requires id in o.subs
  {
    if o.subs[id].closed then o
    else o.(subs := o.subs[id := o.subs[id].(closed := true)], attached := o.attached - {id})
  }

  /** The frame that is ready for an open subscriber, if any. */
  function Ready(o: Output, s: Sub): Option<Frame>
  {
    var head := |o.history|;
    if !s.initial then Some(Snapshot(head))
    else if s.detached.Some? then Some(Missing(head, s.detached.value, SlowConsumer))
    else
      var read := ReadReply(o.history, o.limit, s.cursor, MAX_OUTPUT_CHUNK);
      if read.Ok? && read.span.gap then Some(Missing(head, Gap(read.span.start, read.span.end), Evicted))
      else if read.Ok? && |read.span.data| > 0 then Some(Data(head, read.span.start, read.span.end, read.span.data))
      else if o.ended then
        if o.unknown && !s.tailSent then Some(Missing(head, Gap(s.cursor, s.cursor), Tail)) else Some(End(head))
      else None
  }

  /** What handing over a frame changes about the subscriber. */
  function Handed(s: Sub, frame: Frame): Sub
  {
    (match frame
     case Snapshot(_) => s.(initial := true)
     case Data(_, _, end, _) => s.(cursor := end)
     case Missing(_, gap, cause) =>
       (match cause
        case Evicted => s.(cursor := gap.to)
        case SlowConsumer => s.(detached := None, closed := true)
        case Tail => s.(tailSent := true))
     case End(_) => s.(closed := true)).(frames := s.frames + [frame])
  }

  predicate Open(o: Output, id: SubId) { id in o.subs && !o.subs[id].closed }

  function Next(o: Output, id: SubId): Output
    requires Open(o, id) && Ready(o, o.subs[id]).Some?
  {
    var frame := Ready(o, o.subs[id]).value;
    o.(subs := o.subs[id := Handed(o.subs[id], frame)], attached := if frame.End? then o.attached - {id} else o.attached)
  }

  // ---- Steps --------------------------------------------------------------------

  datatype Step =
    | DoAppend(p: seq<byte>)
    | DoFinish(unknown: bool)
    | DoSubscribe(id: SubId, cursor: nat)
    | DoClose(id: SubId)
    | DoNext(id: SubId)

  predicate Enabled(o: Output, step: Step)
  {
    match step
    case DoAppend(_) => o.attached <= o.subs.Keys
    case DoFinish(_) => true
    case DoSubscribe(id, cursor) => id !in o.subs && SubscribeReply(o, cursor) == Admitted
    case DoClose(id) => id in o.subs
    case DoNext(id) => Open(o, id) && Ready(o, o.subs[id]).Some?
  }

  function Apply(o: Output, step: Step): Output
    requires Enabled(o, step)
  {
    match step
    case DoAppend(p) => Append(o, p)
    case DoFinish(unknown) => Finish(o, unknown)
    case DoSubscribe(id, cursor) => Subscribe(o, id, cursor)
    case DoClose(id) => Close(o, id)
    case DoNext(id) => Next(o, id)
  }

  predicate Legal(o: Output, steps: seq<Step>)
    decreases |steps|
  {
    steps == [] || (Enabled(o, steps[0]) && Legal(Apply(o, steps[0]), steps[1..]))
  }

  function After(o: Output, steps: seq<Step>): Output
    requires Legal(o, steps)
    decreases |steps|
  {
    if steps == [] then o else After(Apply(o, steps[0]), steps[1..])
  }

  function NewOutput(limit: nat, pending: nat): Output { Output([], limit, pending, false, false, map[], {}) }

  // ---- Tiling -------------------------------------------------------------------

  /** The range of offsets a frame speaks for. */
  function Start(f: Frame, at: nat): nat
  {
    match f
    case Data(_, start, _, _) => start
    case Missing(_, gap, _) => gap.from
    case _ => at
  }

  function Stop(f: Frame, at: nat): nat
  {
    match f
    case Data(_, _, end, _) => end
    case Missing(_, gap, _) => gap.to
    case _ => at
  }

  /** Where the frames have got to, starting from an offset. */
  function Covered(frames: seq<Frame>, from: nat): nat
  {
    if frames == [] then from else Stop(frames[|frames| - 1], Covered(frames[..|frames| - 1], from))
  }

  /** Every frame starts where the one before it stopped, a data frame holds what the
      producer appended there, and nothing follows the end or a lost subscription. */
  predicate Tiled(frames: seq<Frame>, from: nat, history: seq<byte>)
  {
    frames == []
    || var rest, last := frames[..|frames| - 1], frames[|frames| - 1];
       var at := Covered(rest, from);
       Tiled(rest, from, history)
       && Start(last, at) == at <= Stop(last, at) <= last.head <= |history|
       && (last.Data? ==> last.start < last.end && last.bytes == history[last.start..last.end])
       && (last.Snapshot? <==> rest == [])
       && (rest != [] ==> !Final(rest[|rest| - 1]))
       && (last.End? ==> at == last.head)
  }

  predicate Final(f: Frame) { f.End? || (f.Missing? && f.cause == SlowConsumer) }

  function Last(s: Sub): Option<Frame> { if s.frames == [] then None else Some(s.frames[|s.frames| - 1]) }

  predicate Lost(s: Sub) { Last(s).Some? && Last(s).value.Missing? && Last(s).value.cause == SlowConsumer }

  /** One subscriber, seen from the log it reads. */
  predicate SubOk(o: Output, id: SubId, s: Sub)
  {
    Tiled(s.frames, s.from, o.history) && (s.frames == [] <==> !s.initial)
    && s.cursor <= |o.history| && s.attachHead <= |o.history|
    && (Last(s).Some? && Final(Last(s).value) ==> s.closed)
    && (!Lost(s) ==> Covered(s.frames, s.from) == s.cursor)
    && (s.detached.Some? ==> s.detached.value.from == s.cursor <= s.detached.value.to <= |o.history| && !Lost(s) && id !in o.attached)
    && (Last(s).Some? && Last(s).value.End? ==> o.ended && Last(s).value.head == |o.history|)
    && (id in o.attached ==> !s.closed && Affordable(s, |o.history|, o.pending))
  }

  ghost predicate Inv(o: Output)
  {
    o.attached <= o.subs.Keys && |o.attached| <= MAX_SUBSCRIBERS && |o.history| <= MAX_OFFSET
    && forall id :: id in o.subs ==> SubOk(o, id, o.subs[id])
  }

  // ---- Proofs -------------------------------------------------------------------

  lemma {:induction false} CoveredInRange(frames: seq<Frame>, from: nat, history: seq<byte>)
    requires Tiled(frames, from, history)
    ensures from <= Covered(frames, from) && (frames != [] ==> Covered(frames, from) <= |history|)
    decreases |frames|
  {
    if frames != [] { CoveredInRange(frames[..|frames| - 1], from, history); }
  }

  /** What was handed over stays true as the log grows. */
  lemma {:induction false} TiledGrows(frames: seq<Frame>, from: nat, history: seq<byte>, p: seq<byte>)
    requires Tiled(frames, from, history)
    ensures Tiled(frames, from, history + p)
    decreases |frames|
  {
    if frames != [] {
      TiledGrows(frames[..|frames| - 1], from, history, p);
      var last := frames[|frames| - 1];
      if last.Data? { assert (history + p)[last.start..last.end] == history[last.start..last.end]; }
    }
  }

  lemma {:induction false} TiledMore(frames: seq<Frame>, from: nat, history: seq<byte>, f: Frame)
    requires Tiled(frames, from, history) && (frames != [] ==> !Final(frames[|frames| - 1]))
    requires Start(f, Covered(frames, from)) == Covered(frames, from) <= Stop(f, Covered(frames, from)) <= f.head <= |history|
    requires f.Data? ==> f.start < f.end && f.bytes == history[f.start..f.end]
    requires (f.Snapshot? <==> frames == []) && (f.End? ==> Covered(frames, from) == f.head)
    ensures Tiled(frames + [f], from, history) && Covered(frames + [f], from) == Stop(f, Covered(frames, from))
  {
    assert (frames + [f])[..|frames|] == frames;
  }

  /** A subscriber that nobody touches. */
  lemma {:induction false} SubKept(o: Output, o': Output, id: SubId, s: Sub)
    requires SubOk(o, id, s) && o'.history == o.history && o'.pending == o.pending && (o.ended ==> o'.ended)
    requires id in o'.attached ==> id in o.attached
    ensures SubOk(o', id, s)
  {
    hide Tiled, Covered, PendingCost;
  }

  lemma {:induction false} SubGrows(o: Output, o': Output, id: SubId, p: seq<byte>)
    requires o.attached <= o.subs.Keys
    requires id in o.subs && SubOk(o, id, o.subs[id]) && !o.ended && AppendReply(|o.history|, p).Ok? && o' == Append(o, p)
    ensures id in o'.subs && SubOk(o', id, o'.subs[id])
  {
    TiledGrows(o.subs[id].frames, o.subs[id].from, o.history, p);
    hide Tiled, Covered, PendingCost;
  }

  lemma {:induction false} AppendKeeps(o: Output, p: seq<byte>)
    requires Inv(o)
    ensures Inv(Append(o, p))
  {
    hide SubOk;
    var o' := Append(o, p);
    if !o.ended && AppendReply(|o.history|, p).Ok? {
      assert o'.attached <= o.attached;
      C.Subset(o'.attached, o.attached);
      forall id | id in o'.subs ensures SubOk(o', id, o'.subs[id]) { SubGrows(o, o', id, p); }
    }
  }

  /** The frame that is ready continues the tiling. */
  lemma {:induction false} FrameTiles(o: Output, id: SubId)
    requires Open(o, id) && Ready(o, o.subs[id]).Some? && SubOk(o, id, o.subs[id])
    ensures var s, f := o.subs[id], Ready(o, o.subs[id]).value;
            Tiled(s.frames + [f], s.from, o.history) && Covered(s.frames + [f], s.from) == Stop(f, Covered(s.frames, s.from))
  {
    var s, f := o.subs[id], Ready(o, o.subs[id]).value;
    TiledMore(s.frames, s.from, o.history, f);
  }

  /** A frame continues the tiling, and reading only lowers what is unread. */
  lemma {:induction false} NextKeeps(o: Output, id: SubId)
    requires Inv(o) && Open(o, id) && Ready(o, o.subs[id]).Some?
    ensures Inv(Next(o, id))
  {
    hide SubOk, Ready, Tiled, Covered;
    var o' := Next(o, id);
    C.Subset(o'.attached, o.attached);
    FrameTiles(o, id);
    HandedIsOk(o, o', id);
    forall q | q in o'.subs && q != id ensures SubOk(o', q, o'.subs[q]) { SubKept(o, o', q, o.subs[q]); }
  }

  lemma {:induction false} HandedIsOk(o: Output, o': Output, id: SubId)
    requires |o.history| <= MAX_OFFSET && Open(o, id) && Ready(o, o.subs[id]).Some? && SubOk(o, id, o.subs[id]) && o' == Next(o, id)
    requires var s, f := o.subs[id], Ready(o, o.subs[id]).value;
             Tiled(s.frames + [f], s.from, o.history) && Covered(s.frames + [f], s.from) == Stop(f, Covered(s.frames, s.from))
    ensures SubOk(o', id, o'.subs[id])
  {
    var s, s' := o.subs[id], o'.subs[id];
    if id in o'.attached { CostMonotone(Unread(s', |o.history|), Unread(s, |o.history|)); }
  }

  lemma {:induction false} StepKeeps(o: Output, step: Step)
    requires Inv(o) && Enabled(o, step)
    ensures Inv(Apply(o, step))
  {
    match step
    case DoAppend(p) => AppendKeeps(o, p);
    case DoNext(id) => NextKeeps(o, id);
    case DoSubscribe(id, cursor) => SubscribeKeeps(o, id, cursor);
    case DoClose(id) => CloseKeeps(o, id);
    case DoFinish(unknown) => FinishKeeps(o, unknown);
  }

  lemma {:induction false} SubscribeKeeps(o: Output, id: SubId, cursor: nat)
    requires Inv(o) && id !in o.subs && SubscribeReply(o, cursor) == Admitted
    ensures Inv(Subscribe(o, id, cursor))
  {
    var o' := Subscribe(o, id, cursor);
    forall q | q in o'.subs && q != id ensures SubOk(o', q, o'.subs[q]) { assert SubOk(o, q, o.subs[q]); }
    assert Unread(o'.subs[id], |o.history|) == 0;
  }

  lemma {:induction false} CloseKeeps(o: Output, id: SubId)
    requires Inv(o) && id in o.subs
    ensures Inv(Close(o, id))
  {
    var o' := Close(o, id);
    C.Subset(o'.attached, o.attached);
    forall q | q in o'.subs ensures SubOk(o', q, o'.subs[q]) {
      if q == id { ClosedIsOk(o, id); } else { SubKept(o, o', q, o.subs[q]); }
    }
  }

  lemma {:induction false} ClosedIsOk(o: Output, id: SubId)
    requires id in o.subs && SubOk(o, id, o.subs[id])
    ensures SubOk(Close(o, id), id, Close(o, id).subs[id])
  {
    hide Tiled, Covered, PendingCost;
  }

  lemma {:induction false} FinishKeeps(o: Output, unknown: bool)
    requires Inv(o)
    ensures Inv(Finish(o, unknown))
  {
    var o' := Finish(o, unknown);
    forall q | q in o'.subs ensures SubOk(o', q, o'.subs[q]) { assert SubOk(o, q, o.subs[q]); }
  }

  lemma {:induction false} RunKeeps(o: Output, steps: seq<Step>)
    requires Inv(o) && Legal(o, steps)
    ensures Inv(After(o, steps))
    decreases |steps|
  {
    hide Inv, Enabled, Apply;
    if steps != [] {
      StepKeeps(o, steps[0]);
      RunKeeps(Apply(o, steps[0]), steps[1..]);
    }
  }

  // ---- What a subscriber sees ---------------------------------------------------------

  /** In every interleaving of appends, evictions and reads: the frames of a subscriber
      tile the offsets from its start with no hole and no overlap, data is what the
      producer appended there, the end comes only at the end of a finished log, and
      what an attached subscriber has not read costs at most the pending limit. */
  lemma {:induction false} EverySubscriberTiles(limit: nat, pending: nat, steps: seq<Step>, id: SubId)
    requires Legal(NewOutput(limit, pending), steps) && id in After(NewOutput(limit, pending), steps).subs
    ensures var o := After(NewOutput(limit, pending), steps); var s := o.subs[id];
            Tiled(s.frames, s.from, o.history) && (!Lost(s) ==> Covered(s.frames, s.from) == s.cursor)
            && (Last(s).Some? && Last(s).value.End? ==> o.ended && s.closed && Covered(s.frames, s.from) == |o.history|)
            && (id in o.attached ==> Affordable(s, |o.history|, pending))
            && |o.attached| <= MAX_SUBSCRIBERS
  {
    RunKeeps(NewOutput(limit, pending), steps);
    LimitsStay(NewOutput(limit, pending), steps);
    var o := After(NewOutput(limit, pending), steps);
    assert SubOk(o, id, o.subs[id]);
  }

  lemma {:induction false} LimitsStay(o: Output, steps: seq<Step>)
    requires Legal(o, steps)
    ensures After(o, steps).limit == o.limit && After(o, steps).pending == o.pending
    decreases |steps|
  {
    if steps != [] { LimitsStay(Apply(o, steps[0]), steps[1..]); }
  }

  function Bytes(frames: seq<Frame>): seq<byte>
  {
    if frames == [] then []
    else Bytes(frames[..|frames| - 1]) + if frames[|frames| - 1].Data? then frames[|frames| - 1].bytes else []
  }

  predicate NoGap(frames: seq<Frame>) { forall f :: f in frames ==> !f.Missing? }

  /** Without gaps, what a subscriber received, put together, is the log from where it
      started up to where it got. */
  lemma {:induction false} GaplessIsVerbatim(frames: seq<Frame>, from: nat, history: seq<byte>)
    requires Tiled(frames, from, history) && NoGap(frames) && from <= |history|
    ensures from <= Covered(frames, from) <= |history| && Bytes(frames) == history[from..Covered(frames, from)]
    decreases |frames|
  {
    if frames != [] {
      var rest, last := frames[..|frames| - 1], frames[|frames| - 1];
      assert NoGap(rest) by { forall f | f in rest ensures !f.Missing? { assert f in frames; } }
      GaplessIsVerbatim(rest, from, history);
      CoveredInRange(frames, from, history);
      assert last in frames;
      if last.Data? { assert history[from..last.end] == history[from..last.start] + history[last.start..last.end]; }
    }
  }
}
