/** The output object: a ring and its subscribers behind one lock, proved to take the
    steps of the fan-out. A subscription is named by a number. */
module OutputOwner {
  import opened Options
  import opened ByteLog
  import F = OutputFanout

  class Output {
    const log: Log
    const pending: nat
    var ended: bool
    var unknown: bool
    var subs: map<F.SubId, F.Sub>
    var attached: set<F.SubId>

    ghost predicate Valid()
      reads this, log, log.data
    {
      log.Valid() && attached <= subs.Keys
      && forall id :: id in subs ==> subs[id].cursor <= log.head && subs[id].attachHead <= log.head
    }

    ghost function State(): F.Output
      reads this, log
    {
      F.Output(log.history, log.limit, pending, ended, unknown, subs, attached)
    }

    constructor (limit: nat, pending: nat)
      requires 1 <= limit <= MAX_OUTPUT_BYTES
      ensures Valid() && State() == F.NewOutput(limit, pending) && fresh(log) && fresh(log.data)
    {
      log := new Log(limit);
      this.pending := pending;
      ended, unknown, subs, attached := false, false, map[], {};
    }

    /** Detaches every subscriber that is too far behind the head. */
    method DetachSlow(head: nat)
      requires attached <= subs.Keys
      modifies `subs, `attached
      ensures attached == set id | id in old(attached) && !F.TooSlow(old(subs)[id], head, pending)
      ensures subs == map id | id in old(subs) ::
                if id in old(attached) && F.TooSlow(old(subs)[id], head, pending) then F.Detach(old(subs)[id], head) else old(subs)[id]
      ensures forall id :: id in old(attached) && old(subs)[id].cursor <= head && old(subs)[id].attachHead <= head ==>
                (id in attached <==> F.Affordable(old(subs)[id], head, pending))
    {
      var todo := attached;
      while todo != {}
        invariant todo <= old(attached) && subs.Keys == old(subs).Keys
        invariant attached == set id | id in old(attached) && (id in todo || !F.TooSlow(old(subs)[id], head, pending))
        invariant forall id :: id in old(subs) ==>
                    subs[id] == if id in old(attached) && id !in todo && F.TooSlow(old(subs)[id], head, pending)
                                then F.Detach(old(subs)[id], head) else old(subs)[id]
        decreases |todo|
      {
        var id :| id in todo;
        var s := subs[id];
        if F.TooSlow(s, head, pending) {
          subs := subs[id := s.(detached := Some(F.Gap(s.cursor, head)))];
          attached := attached - {id};
        }
        todo := todo - {id};
      }
    }

    /** Never waits: subscribers that are too far behind are detached instead. */
    method Append(p: seq<byte>) returns (error: Option<Error>)
      requires Valid()
      modifies this, log, log.data
      ensures Valid() && State() == F.Append(old(State()), p)
      ensures error.None? <==> !old(ended) && |p| <= MAX_OUTPUT_CHUNK && old(log.head) + |p| <= MAX_OFFSET
      ensures error.None? ==> log.history == old(log.history) + p
                              && forall id :: id in old(attached) ==> (id in attached <==> F.Affordable(old(subs)[id], log.head, pending))
      ensures error.Some? ==> State() == old(State())
    {
      if ended { return Some(ErrClosed); }
      var reply := log.Append(p);
      if reply.Err? { return Some(reply.error); }
      DetachSlow(log.head);
      error := None;
    }

    method Finish(unknown: bool)
      requires Valid()
      modifies `ended, `unknown
      ensures Valid() && State() == F.Finish(old(State()), unknown)
    {
      if ended { return; }
      ended := true;
      this.unknown := unknown;
    }

    method Subscribe(id: F.SubId, cursor: nat) returns (reply: F.Admission)
      requires Valid() && id !in subs
      modifies `subs, `attached
      ensures Valid() && reply == F.SubscribeReply(old(State()), cursor)
      ensures reply.Admitted? <==> cursor <= log.head && |old(attached)| < F.MAX_SUBSCRIBERS
      ensures State() == if reply.Admitted? then F.Subscribe(old(State()), id, cursor) else old(State())
    {
      if cursor > log.head { return F.Refused(ErrCursor); }
      if |attached| >= F.MAX_SUBSCRIBERS { return F.Refused(ErrLimit); }
      subs := subs[id := F.Sub(cursor, log.head, false, false, false, None, cursor, [])];
      attached := attached + {id};
      reply := F.Admitted;
    }

    method Close(id: F.SubId)
      requires Valid() && id in subs
      modifies `subs, `attached
      ensures Valid() && State() == F.Close(old(State()), id)
    {
      if subs[id].closed { return; }
      subs := subs[id := subs[id].(closed := true)];
      attached := attached - {id};
    }

    /** One turn of a reader under the lock: the next frame, if one is ready. */
    method Next(id: F.SubId) returns (frame: Option<F.Frame>)
      requires Valid() && F.Open(State(), id)
      modifies `subs, `attached
      ensures Valid() && frame == F.Ready(old(State()), old(subs)[id])
      ensures State() == if frame.Some? then F.Next(old(State()), id) else old(State())
    {
      var s := subs[id];
      if !s.initial {
        frame := Some(F.Snapshot(log.head));
        s := s.(initial := true);
      } else if s.detached.Some? {
        frame := Some(F.Missing(log.head, s.detached.value, F.SlowConsumer));
        s := s.(detached := None, closed := true);
      } else {
        var read := log.Read(s.cursor, MAX_OUTPUT_CHUNK);
        if read.span.gap {
          frame := Some(F.Missing(log.head, F.Gap(read.span.start, read.span.end), F.Evicted));
          s := s.(cursor := read.span.end);
        } else if |read.span.data| > 0 {
          frame := Some(F.Data(log.head, read.span.start, read.span.end, read.span.data));
          s := s.(cursor := read.span.end);
        } else if !ended {
          return None;
        } else if unknown && !s.tailSent {
          frame := Some(F.Missing(log.head, F.Gap(s.cursor, s.cursor), F.Tail));
          s := s.(tailSent := true);
        } else {
          frame := Some(F.End(log.head));
          s := s.(closed := true);
          attached := attached - {id};
        }
      }
      subs := subs[id := s.(frames := s.frames + [frame.value])];
    }
  }
}
