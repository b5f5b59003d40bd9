/** A bounded, lazily growing ring of captured bytes, addressed by absolute offsets.
    The ghost history is everything ever appended; the ring keeps its newest part. */
module ByteLog {
  const MAX_OUTPUT_BYTES: nat := 2 * 1024 * 1024
  const MAX_OUTPUT_CHUNK: nat := 32 * 1024
  const MAX_OFFSET: nat := 0xFFFF_FFFF_FFFF_FFFF

  type byte = bv8

  datatype Error = ErrLimit | ErrCursor | ErrClosed

  datatype Span = Span(start: nat, end: nat, data: seq<byte>, gap: bool)
  datatype Reply = Ok(span: Span) | Err(error: Error)

  function Min(a: int, b: int): int { if a < b then a else b }
  function Max(a: int, b: int): int { if a < b then b else a }

  /** The first offset still retained. */
  function BaseOf(head: nat, limit: nat): nat { if head > limit then head - limit else 0 }

  /** What an append answers. */
  function AppendReply(head: nat, p: seq<byte>): Reply
  {
    if |p| > MAX_OUTPUT_CHUNK then Err(ErrLimit)
    else if |p| > MAX_OFFSET - head then Err(ErrLimit)
    else Ok(Span(head, head + |p|, [], false))
  }

  /** What a read at a cursor answers: the evicted range first, then retained bytes
      exactly as they were appended. */
  function ReadReply(history: seq<byte>, limit: nat, cursor: nat, most: int): Reply
  {
    if cursor > |history| then Err(ErrCursor)
    else if most < 1 || most > MAX_OUTPUT_CHUNK then Err(ErrLimit)
    else if cursor < BaseOf(|history|, limit) then Ok(Span(cursor, BaseOf(|history|, limit), [], true))
    else
      var size := Min(most, |history| - cursor);
      Ok(Span(cursor, cursor + size, history[cursor..cursor + size], false))
  }

  /** Offsets closer than the ring's size never share a slot. */
  lemma {:induction false} SlotsDiffer(a: nat, b: nat, size: nat)
    requires size > 0 && a < b < a + size
    ensures a % size != b % size
  {
    var q := b / size - a / size;
    assert b - a == q * size + (b % size - a % size);
    if q > 0 {
      assert q * size >= size;
    } else if q < 0 {
      assert q * size <= 0;
    }
  }

  class Log {
    const limit: nat
    var data: array<byte>
    var base: nat
    var head: nat
    ghost var history: seq<byte>

    ghost predicate Valid()
      reads this, data
    {
      1 <= limit <= MAX_OUTPUT_BYTES && |history| == head <= MAX_OFFSET
      && base == BaseOf(head, limit) && head - base <= data.Length <= limit
      && forall pos :: base <= pos < head ==> data[pos % data.Length] == history[pos]
    }

    constructor (limit: nat)
      requires 1 <= limit <= MAX_OUTPUT_BYTES
      ensures Valid() && this.limit == limit && history == [] && fresh(data)
    {
      this.limit := limit;
      data := new byte[0];
      base, head, history := 0, 0, [];
    }

    /** Copies the retained bytes into a larger ring, slot by slot. */
    method Grow(size: nat)
      requires Valid() && data.Length < size <= limit
      modifies this`data
      ensures Valid() && fresh(data) && data.Length == size
    {
      var grown := new byte[size](_ => 0);
      var pos := base;
      while pos < head
        invariant base <= pos <= head && data == old(data) && grown != data
        invariant forall q :: base <= q < head ==> data[q % data.Length] == history[q]
        invariant forall q :: base <= q < pos ==> grown[q % size] == history[q]
      {
        forall q | base <= q < pos ensures q % size != pos % size { SlotsDiffer(q, pos, size); }
        assert data.Length >= head - base > 0;
        grown[pos % size] := data[pos % data.Length];
        pos := pos + 1;
      }
      data := grown;
    }

    /** Appends, keeping only the newest bytes the limit allows. */
    method Append(p: seq<byte>) returns (reply: Reply)
      requires Valid()
      modifies this, data
      ensures Valid() && (data == old(data) || fresh(data))
      ensures reply == AppendReply(old(head), p)
      ensures history == if reply.Ok? then old(history) + p else old(history)
    {
      if |p| > MAX_OUTPUT_CHUNK { return Err(ErrLimit); }
      if |p| > MAX_OFFSET - head { return Err(ErrLimit); }
      var next, start := head + |p|, head;
      if |p| > 0 {
        var required := Min(limit, head - base + |p|);
        var size := data.Length;
        if required > size { size := Min(limit, Max(required, Max(1024, size * 2))); }
        if size > data.Length { Grow(size); }
        Write(p, next);
      } else {
        assert history + p == history;
      }
      history := history + p;
      head := next;
      if next > limit { base := next - limit; }
      reply := Ok(Span(start, next, [], false));
    }

    /** Writes the part of `p` that can be retained behind the bytes already there. */
    method Write(p: seq<byte>, next: nat)
      requires Valid() && |p| > 0 && next == head + |p| && Min(limit, head - base + |p|) <= data.Length
      modifies data
      ensures forall pos :: BaseOf(next, limit) <= pos < next ==> data[pos % data.Length] == (history + p)[pos]
    {
      var keep := p[Max(0, |p| - limit)..];
      var begin := next - |keep|;
      ghost var all := history + p;
      var i := 0;
      while i < |keep|
        invariant 0 <= i <= |keep|
        invariant forall pos :: BaseOf(next, limit) <= pos < begin + i ==> data[pos % data.Length] == all[pos]
      {
        forall pos | BaseOf(next, limit) <= pos < begin + i ensures pos % data.Length != (begin + i) % data.Length {
          SlotsDiffer(pos, begin + i, data.Length);
        }
        data[(begin + i) % data.Length] := keep[i];
        i := i + 1;
      }
    }

    /** Reads a chunk at a cursor. */
    method Read(cursor: nat, most: int) returns (reply: Reply)
      requires Valid()
      ensures reply == ReadReply(history, limit, cursor, most)
    {
      if cursor > head { return Err(ErrCursor); }
      if most < 1 || most > MAX_OUTPUT_CHUNK { return Err(ErrLimit); }
      if cursor < base { return Ok(Span(cursor, base, [], true)); }
      var size := Min(most, head - cursor);
      var bytes: seq<byte> := [];
      var i := 0;
      while i < size
        invariant 0 <= i <= size
        invariant bytes == history[cursor..cursor + i]
      {
        bytes := bytes + [data[(cursor + i) % data.Length]];
        i := i + 1;
      }
      reply := Ok(Span(cursor, cursor + size, bytes, false));
    }
  }
}
