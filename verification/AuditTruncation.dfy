/** Truncating an audit payload to a byte limit: a head, a marker that names the
    original size, and a tail, cut between runes. */
module AuditTruncation {
  import opened Utf8

  const MARKER_PREFIX: seq<Byte> := [46, 46, 46, 91, 116, 114, 117, 110, 99, 97, 116, 101, 100, 32,
                                     111, 114, 105, 103, 105, 110, 97, 108, 95, 98, 121, 116, 101, 115, 61]
  const MARKER_SUFFIX: seq<Byte> := [93, 46, 46, 46]
  const NEWLINE: Byte := 10
  const MAX_INT: nat := 0x7FFF_FFFF_FFFF_FFFF

  // ---- Cutting --------------------------------------------------------------------

  /** The last boundary within the limit. */
  ghost predicate LongestPrefix(value: seq<Byte>, limit: nat, end: nat)
  {
    end <= |value| && end <= limit && Boundary(value, end)
    && forall k: nat :: Boundary(value, k) && k <= limit ==> k <= end
  }

  /** The first boundary, seen from the end, that leaves no more than the limit. */
  ghost predicate LongestSuffix(value: seq<Byte>, limit: nat, start: nat)
  {
    start <= |value| && |value| - start <= limit && BackBoundary(value, start)
    && forall k: nat :: BackBoundary(value, k) && |value| - k <= limit ==> start <= k
  }

  /** The decoder goes from one boundary to the next. */
  lemma {:induction false} BoundaryStep(s: seq<Byte>, k: nat)
    requires Boundary(s, k) && k < |s|
    ensures Boundary(s, k + FirstSize(s[k..]))
    decreases |s|
  {
    var n := FirstSize(s);
    if k == 0 {
      assert s[0..] == s;
      assert Boundary(s[n..], 0);
    } else {
      BoundaryStep(s[n..], k - n);
      assert s[n..][k - n..] == s[k..];
    }
  }

  lemma {:induction false} NoneBetween(s: seq<Byte>, k: nat, j: nat)
    requires Boundary(s, k) && Boundary(s, j) && k < j && k < |s|
    ensures j >= k + FirstSize(s[k..])
    decreases |s|
  {
    if k == 0 {
      assert s[0..] == s;
    } else {
      var n := FirstSize(s);
      NoneBetween(s[n..], k - n, j - n);
      assert s[n..][k - n..] == s[k..];
    }
  }

  lemma {:induction false} BackStep(s: seq<Byte>, k: nat)
    requires BackBoundary(s, k) && 0 < k <= |s|
    ensures BackBoundary(s, k - LastSize(s[..k]))
    decreases |s|
  {
    if k == |s| {
      assert s[..k] == s;
    } else {
      var rest := s[..|s| - LastSize(s)];
      BackInRange(rest, k);
      BackStep(rest, k);
      assert rest[..k] == s[..k];
    }
  }

  lemma {:induction false} NoneBetweenBack(s: seq<Byte>, k: nat, j: nat)
    requires BackBoundary(s, k) && BackBoundary(s, j) && j < k <= |s|
    ensures j <= k - LastSize(s[..k])
    decreases |s|
  {
    var rest := s[..|s| - LastSize(s)];
    BackInRange(rest, j);
    if k == |s| {
      assert s[..k] == s;
    } else {
      BackInRange(rest, k);
      NoneBetweenBack(rest, k, j);
      assert rest[..k] == s[..k];
    }
  }

  lemma {:induction false} WholeIsBoundary(s: seq<Byte>)
    ensures Boundary(s, |s|)
    decreases |s|
  {
    if s != [] { WholeIsBoundary(s[FirstSize(s)..]); }
  }

  lemma {:induction false} NoneIsBackBoundary(s: seq<Byte>)
    ensures BackBoundary(s, 0)
    decreases |s|
  {
    if s != [] { NoneIsBackBoundary(s[..|s| - LastSize(s)]); }
  }

  method TakePrefix(value: seq<Byte>, limit: int) returns (head: seq<Byte>)
    ensures |head| <= |value| && head == value[..|head|] && LongestPrefix(value, if limit < 0 then 0 else limit, |head|)
    ensures |value| > limit >= 0 ==> |head| + 3 >= limit
  {
    WholeIsBoundary(value);
    if limit <= 0 { return []; }
    if |value| <= limit {
      forall k: nat | Boundary(value, k) ensures k <= |value| { BoundaryInRange(value, k); }
      return value;
    }
    var end := 0;
    while end < |value|
      invariant 0 <= end < |value| && end <= limit && Boundary(value, end)
    {
      var size := FirstSize(value[end..]);
      BoundaryStep(value, end);
      if end + size > limit { break; }
      end := end + size;
    }
    forall k: nat | Boundary(value, k) && k <= limit ensures k <= end {
      if k > end { NoneBetween(value, end, k); }
    }
    head := value[..end];
  }

  method TakeSuffix(value: seq<Byte>, limit: int) returns (tail: seq<Byte>)
    ensures |tail| <= |value| && tail == value[|value| - |tail|..]
    ensures LongestSuffix(value, if limit < 0 then 0 else limit, |value| - |tail|)
    ensures |value| > limit >= 0 ==> |tail| + 3 >= limit
  {
    NoneIsBackBoundary(value);
    if limit <= 0 {
      forall k: nat | BackBoundary(value, k) ensures k <= |value| { BackInRange(value, k); }
      return [];
    }
    if |value| <= limit { return value; }
    var start := |value|;
    while start > 0
      invariant 0 < start <= |value| && |value| - start <= limit && BackBoundary(value, start)
    {
      var size := LastSize(value[..start]);
      BackStep(value, start);
      if |value| - start + size > limit { break; }
      start := start - size;
    }
    forall k: nat | BackBoundary(value, k) && |value| - k <= limit ensures start <= k {
      if k < start { NoneBetweenBack(value, start, k); }
    }
    tail := value[start..];
  }

  // ---- The marker -----------------------------------------------------------------

  function Digits(n: nat): (d: seq<Byte>)
    ensures d != [] && forall i :: 0 <= i < |d| ==> 48 <= d[i] <= 57
  {
    if n < 10 then [48 + n] else Digits(n / 10) + [48 + n % 10]
  }

  function Marker(originalBytes: nat): seq<Byte> { MARKER_PREFIX + Digits(originalBytes) + MARKER_SUFFIX }

  function MarkerLine(originalBytes: nat): (m: seq<Byte>)
    ensures forall i :: 0 <= i < |m| ==> m[i] < 0x80
  {
    [NEWLINE] + Marker(originalBytes) + [NEWLINE]
  }

  lemma {:induction false} AsciiBoundaries(s: seq<Byte>, k: nat)
    requires k <= |s| && forall i :: 0 <= i < |s| ==> s[i] < 0x80
    ensures Boundary(s, k)
    decreases |s|
  {
    if k > 0 {
      assert FirstSize(s) == 1;
      AsciiBoundaries(s[1..], k - 1);
    }
  }

  // ---- Truncation -----------------------------------------------------------------

  datatype Truncation = Truncation(body: seq<Byte>, truncated: bool, originalBytes: nat)

  /** A head and a tail that do not overlap, each cut between runes as close to its
      half of the budget as the runes allow. */
  ghost predicate Halves(value: seq<Byte>, budget: nat, h: nat, t: nat)
  {
    h <= t <= |value| && LongestPrefix(value, budget / 2, h) && LongestSuffix(value, budget - budget / 2, t)
    && h + 3 >= budget / 2 && |value| - t + 3 >= budget - budget / 2
  }

  ghost predicate Truncated(value: seq<Byte>, limit: int, t: Truncation)
  {
    t.originalBytes == |value|
    && (t.truncated <==> 0 < limit < |value|)
    && (!t.truncated ==> t.body == value)
    && (t.truncated ==>
          |t.body| <= limit
          && if limit <= |MarkerLine(|value|)| then t.body == MarkerLine(|value|)[..limit]
             else exists h: nat, k: nat :: Halves(value, limit - |MarkerLine(|value|)|, h, k)
                                           && t.body == value[..h] + MarkerLine(|value|) + value[k..])
  }

  method Truncate(value: seq<Byte>, limit: int) returns (t: Truncation)
    ensures Truncated(value, limit, t)
  {
    var originalBytes := |value|;
    if limit <= 0 || originalBytes <= limit { return Truncation(value, false, originalBytes); }
    var marker := MarkerLine(originalBytes);
    if limit <= |marker| {
      var body := TakePrefix(marker, limit);
      AsciiBoundaries(marker, limit);
      return Truncation(body, true, originalBytes);
    }
    var payloadBudget := limit - |marker|;
    var headBudget := payloadBudget / 2;
    var tailBudget := payloadBudget - headBudget;
    var head := TakePrefix(value, headBudget);
    var tail := TakeSuffix(value, tailBudget);
    assert Halves(value, payloadBudget, |head|, |value| - |tail|);
    t := Truncation(head + marker + tail, true, originalBytes);
  }

  /** Truncating valid UTF-8 gives valid UTF-8. */
  lemma {:induction false} TruncationIsValid(value: seq<Byte>, limit: int, t: Truncation)
    requires Truncated(value, limit, t) && Valid(value)
    ensures Valid(t.body) && (limit > 0 ==> |t.body| <= limit)
  {
    var marker := MarkerLine(|value|);
    if t.truncated {
      if limit <= |marker| {
        AsciiIsValid(marker[..limit]);
      } else {
        var h: nat, k: nat :| Halves(value, limit - |marker|, h, k) && t.body == value[..h] + marker + value[k..];
        ValidParts(value, h);
        ValidBackParts(value, k);
        AsciiIsValid(marker);
        ValidConcat(value[..h], marker);
        ValidConcat(value[..h] + marker, value[k..]);
      }
    }
  }

  // ---- Reading the size back ----------------------------------------------------------

  predicate At(s: seq<Byte>, p: seq<Byte>, i: nat) { i + |p| <= |s| && s[i..i + |p|] == p }

  predicate Contains(s: seq<Byte>, p: seq<Byte>) { exists i: nat | i <= |s| :: At(s, p, i) }

  function LastIndexFrom(s: seq<Byte>, p: seq<Byte>, from: nat): (i: int)
    ensures -1 <= i <= from && (i >= 0 ==> At(s, p, i)) && forall j: nat :: i < j <= from ==> !At(s, p, j)
  {
    if At(s, p, from) then from else if from == 0 then -1 else LastIndexFrom(s, p, from - 1)
  }

  function LastIndex(s: seq<Byte>, p: seq<Byte>): int { LastIndexFrom(s, p, |s|) }

  function IndexFrom(s: seq<Byte>, p: seq<Byte>, from: nat): (i: int)
    requires from <= |s|
    ensures i == -1 || (from <= i <= |s| && At(s, p, i))
    ensures forall j: nat :: from <= j && (i == -1 || j < i) ==> !At(s, p, j)
    decreases |s| - from
  {
    if At(s, p, from) then from else if from == |s| then -1 else IndexFrom(s, p, from + 1)
  }

  function Index(s: seq<Byte>, p: seq<Byte>): int { IndexFrom(s, p, 0) }

  predicate AllDigits(s: seq<Byte>) { s != [] && forall i :: 0 <= i < |s| ==> 48 <= s[i] <= 57 }

  function Parse(s: seq<Byte>): nat
    requires s == [] || AllDigits(s)
  {
    if s == [] then 0 else Parse(s[..|s| - 1]) * 10 + (s[|s| - 1] - 48)
  }

  /** Decimal text with an optional sign; anything else, or more than 64 bits, is 0. */
  function Atoi(s: seq<Byte>): int
  {
    var signed := s != [] && (s[0] == 43 || s[0] == 45);
    var digits := if signed then s[1..] else s;
    if !AllDigits(digits) then 0
    else
      var v: int := Parse(digits);
      if signed && s[0] == 45 then if v > MAX_INT + 1 then 0 else -v
      else if v > MAX_INT then 0
      else v
  }

  function NumberBefore(rest: seq<Byte>, suffix: seq<Byte>): int
  {
    var end := Index(rest, suffix);
    if end < 0 then 0 else Atoi(rest[..end])
  }

  /** The number between the last prefix of a payload and the suffix behind it. */
  function Between(payload: seq<Byte>, prefix: seq<Byte>, suffix: seq<Byte>): int
  {
    var marker := LastIndex(payload, prefix);
    if marker < 0 then 0 else NumberBefore(payload[marker + |prefix|..], suffix)
  }

  /** The size the last marker in a payload names. */
  function OriginalBytes(payload: seq<Byte>): int { Between(payload, MARKER_PREFIX, MARKER_SUFFIX) }

  lemma {:induction false} ParseDigits(n: nat)
    ensures AllDigits(Digits(n)) && Parse(Digits(n)) == n
    decreases n
  {
    if n >= 10 {
      ParseDigits(n / 10);
      assert Digits(n)[..|Digits(n)| - 1] == Digits(n / 10);
    }
  }

  lemma {:induction false} AtByte(s: seq<Byte>, p: seq<Byte>, i: nat, x: nat)
    requires x < |p|
    ensures At(s, p, i) ==> i + x < |s| && s[i + x] == p[x]
  {
    if At(s, p, i) { assert s[i + x] == s[i..i + |p|][x]; }
  }

  /** The only bracket that opens in a marker line is its fifth byte. */
  lemma {:induction false} NoBracket(n: nat, x: nat)
    requires 4 < x < |MarkerLine(n)|
    ensures MarkerLine(n)[x] != 91
  {
    var d := Digits(n);
    assert MarkerLine(n) == [NEWLINE] + MARKER_PREFIX + d + MARKER_SUFFIX + [NEWLINE];
  }

  /** A line between head and tail: after its fifth byte no bracket opens in it. */
  predicate Line(m: seq<Byte>) { |m| > 4 && m[|m| - 1] == NEWLINE && forall x :: 4 < x < |m| ==> m[x] != 91 }

  /** Three dots and a bracket. */
  predicate Opens(p: seq<Byte>) { |p| > 3 && p[0] == 46 && p[1] == 46 && p[2] == 46 && p[3] == 91 }

  lemma {:induction false} MarkerIsLine(n: nat)
    ensures Line(MarkerLine(n)) && Opens(MARKER_PREFIX) && |MARKER_PREFIX| == 29
  {
    forall x | 4 < x < |MarkerLine(n)| ensures MarkerLine(n)[x] != 91 { NoBracket(n, x); }
  }

  lemma {:induction false} NotInLine(head: seq<Byte>, m: seq<Byte>, tail: seq<Byte>, p: seq<Byte>, i: nat)
    requires Line(m) && Opens(p) && |head| + 1 < i < |head| + |m|
    ensures !At(head + m + tail, p, i)
  {
    var body := head + m + tail;
    var last := |head| + |m| - 1;
    if i + 3 <= last {
      assert body[i + 3] == m[i + 3 - |head|];
      AtByte(body, p, i, 3);
    } else {
      assert body[last] == m[|m| - 1];
      AtByte(body, p, i, last - i);
    }
  }

  lemma {:induction false} InTail(front: seq<Byte>, tail: seq<Byte>, p: seq<Byte>, i: nat)
    requires i >= |front|
    ensures At(front + tail, p, i) <==> At(tail, p, i - |front|)
  {
    if i + |p| <= |front + tail| { assert (front + tail)[i..i + |p|] == tail[i - |front|..i - |front| + |p|]; }
  }

  /** Past the start of its own marker, a body mentions a marker only in its tail. */
  lemma {:induction false} LastMention(head: seq<Byte>, m: seq<Byte>, tail: seq<Byte>, p: seq<Byte>)
    requires Line(m) && Opens(p) && At(head + m + tail, p, |head| + 1)
    ensures Contains(tail, p) <==> LastIndex(tail, p) >= 0
    ensures LastIndex(head + m + tail, p) == if Contains(tail, p) then |head| + |m| + LastIndex(tail, p) else |head| + 1
  {
    var body, front := head + m + tail, head + m;
    var got := LastIndex(body, p);
    if got > |head| + 1 {
      if got < |front| { NotInLine(head, m, tail, p, got); } else { InTail(front, tail, p, got); }
    }
    if Contains(tail, p) {
      var last := LastIndex(tail, p);
      InTail(front, tail, p, |front| + last);
    }
  }

  /** The tail's last marker is the body's last marker. */
  lemma {:induction false} TailSpeaks(head: seq<Byte>, m: seq<Byte>, tail: seq<Byte>, p: seq<Byte>, q: seq<Byte>)
    requires Line(m) && Opens(p) && At(head + m + tail, p, |head| + 1) && Contains(tail, p)
    ensures Between(head + m + tail, p, q) == Between(tail, p, q)
  {
    LastMention(head, m, tail, p);
    TailRest(head, m, tail, p, q, LastIndex(tail, p));
  }

  lemma {:induction false} TailRest(head: seq<Byte>, m: seq<Byte>, tail: seq<Byte>, p: seq<Byte>, q: seq<Byte>, at: int)
    requires 0 <= at && at + |p| <= |tail| && LastIndex(tail, p) == at && LastIndex(head + m + tail, p) == |head| + |m| + at
    ensures Between(head + m + tail, p, q) == Between(tail, p, q)
  {
    hide LastIndex, NumberBefore;
    SameRest(head, m, tail, at + |p|);
    assert |head| + |m| + at + |p| == |head| + |m| + (at + |p|);
  }

  /** Without one, the body's own marker speaks. */
  lemma {:induction false} MarkerSpeaks(head: seq<Byte>, m: seq<Byte>, tail: seq<Byte>, p: seq<Byte>, q: seq<Byte>, d: seq<Byte>)
    requires Line(m) && Opens(p) && At(head + m + tail, p, |head| + 1) && !Contains(tail, p)
    requires |head| + 1 + |p| <= |head + m + tail|
    requires var rest := (head + m + tail)[|head| + 1 + |p|..]; Index(rest, q) == |d| <= |rest| && rest[..|d|] == d
    ensures Between(head + m + tail, p, q) == Atoi(d)
  {
    LastMention(head, m, tail, p);
    OwnRest(head + m + tail, |head| + 1, p, q, d);
  }

  lemma {:induction false} OwnRest(body: seq<Byte>, at: nat, p: seq<Byte>, q: seq<Byte>, d: seq<Byte>)
    requires LastIndex(body, p) == at && at + |p| <= |body|
    requires var rest := body[at + |p|..]; Index(rest, q) == |d| <= |rest| && rest[..|d|] == d
    ensures Between(body, p, q) == Atoi(d)
  {
    hide LastIndex, Index, Atoi;
  }

  /** Reading the size back from a truncated body gives what was truncated, unless the
      kept tail mentions a marker of its own: then it gives what the tail says. */
  lemma {:induction false} SizeReadBack(head: seq<Byte>, n: nat, tail: seq<Byte>)
    requires n <= MAX_INT
    ensures OriginalBytes(head + MarkerLine(n) + tail) == if Contains(tail, MARKER_PREFIX) then OriginalBytes(tail) else n
  {
    hide Between, LastIndex, Index, Atoi, Contains, At, Line, Opens, Digits;
    MarkerIsLine(n);
    MarkerStands(head, n, tail);
    if Contains(tail, MARKER_PREFIX) {
      TailSpeaks(head, MarkerLine(n), tail, MARKER_PREFIX, MARKER_SUFFIX);
    } else {
      OwnMarker(head, n, tail);
      MarkerSpeaks(head, MarkerLine(n), tail, MARKER_PREFIX, MARKER_SUFFIX, Digits(n));
    }
  }

  lemma {:induction false} SameRest(head: seq<Byte>, m: seq<Byte>, tail: seq<Byte>, i: nat)
    requires i <= |tail|
    ensures (head + m + tail)[|head| + |m| + i..] == tail[i..]
  {
  }

  lemma {:induction false} MarkerStands(head: seq<Byte>, n: nat, tail: seq<Byte>)
    ensures At(head + MarkerLine(n) + tail, MARKER_PREFIX, |head| + 1)
  {
    var body, a := head + MarkerLine(n) + tail, |head| + 1;
    assert body[a..a + |MARKER_PREFIX|] == MARKER_PREFIX;
  }

  /** Behind the prefix of the body's own marker come the digits and the suffix. */
  lemma {:induction false} OwnMarker(head: seq<Byte>, n: nat, tail: seq<Byte>)
    requires n <= MAX_INT
    ensures var rest := (head + MarkerLine(n) + tail)[|head| + 1 + |MARKER_PREFIX|..];
            Index(rest, MARKER_SUFFIX) == |Digits(n)| <= |rest| && rest[..|Digits(n)|] == Digits(n) && Atoi(Digits(n)) == n
  {
    var rest := (head + MarkerLine(n) + tail)[|head| + 1 + |MARKER_PREFIX|..];
    assert rest == Digits(n) + (MARKER_SUFFIX + [NEWLINE] + tail);
    DigitsThenSuffix(n, [NEWLINE] + tail);
    assert MARKER_SUFFIX + ([NEWLINE] + tail) == MARKER_SUFFIX + [NEWLINE] + tail;
  }

  lemma {:induction false} DigitsThenSuffix(n: nat, more: seq<Byte>)
    requires n <= MAX_INT
    ensures var rest := Digits(n) + (MARKER_SUFFIX + more);
            Index(rest, MARKER_SUFFIX) == |Digits(n)| && rest[..|Digits(n)|] == Digits(n) && Atoi(Digits(n)) == n
  {
    var d := Digits(n);
    var rest := d + (MARKER_SUFFIX + more);
    assert At(rest, MARKER_SUFFIX, |d|) by { assert rest[|d|..|d| + |MARKER_SUFFIX|] == MARKER_SUFFIX; }
    forall i: nat | i < |d| ensures !At(rest, MARKER_SUFFIX, i) {
      assert rest[i] == d[i];
      AtByte(rest, MARKER_SUFFIX, i, 0);
    }
    ParseDigits(n);
  }

  // A marker line that was itself cut names its size only with its suffix complete.

  lemma {:induction false} CutMention(n: nat, limit: nat, i: nat)
    requires limit <= |MarkerLine(n)| && At(MarkerLine(n)[..limit], MARKER_PREFIX, i)
    ensures i == 1
  {
    var m := MarkerLine(n);
    assert m[..limit][i..i + |MARKER_PREFIX|] == m[i..i + |MARKER_PREFIX|];
    MarkerIsLine(n);
    AtByte(m, MARKER_PREFIX, i, 0);
    assert m[0] == NEWLINE;
    assert [] + m + [] == m;
    if i > 1 { NotInLine([], m, [], MARKER_PREFIX, i); }
  }

  lemma {:induction false} CutRest(n: nat, limit: nat)
    requires 30 <= limit <= |MarkerLine(n)|
    ensures |MarkerLine(n)| == 30 + |Digits(n)| + |MARKER_SUFFIX| + 1
    ensures var rest := MarkerLine(n)[..limit][30..];
            |rest| == limit - 30 && forall i :: 0 <= i < |rest| && i < |Digits(n)| ==> rest[i] == Digits(n)[i]
    ensures limit + 1 == |MarkerLine(n)| ==> MarkerLine(n)[..limit][30..] == Digits(n) + (MARKER_SUFFIX + [])
  {
    MarkerIsLine(n);
    assert MarkerLine(n) == [NEWLINE] + MARKER_PREFIX + (Digits(n) + MARKER_SUFFIX + [NEWLINE]);
  }

  lemma {:induction false} CutUnnamed(n: nat, limit: nat)
    requires 30 <= limit && limit + 1 < |MarkerLine(n)|
    ensures Index(MarkerLine(n)[..limit][30..], MARKER_SUFFIX) == -1
  {
    var rest := MarkerLine(n)[..limit][30..];
    CutRest(n, limit);
    var i := Index(rest, MARKER_SUFFIX);
    if i >= 0 { AtByte(rest, MARKER_SUFFIX, i, 0); }
  }

  lemma {:induction false} CutMarkerSize(n: nat, limit: nat)
    requires n <= MAX_INT && limit <= |MarkerLine(n)|
    ensures OriginalBytes(MarkerLine(n)[..limit]) == if limit + 1 >= |MarkerLine(n)| then n else 0
  {
    hide NumberBefore, Index, Atoi, Digits, Contains;
    var m, body := MarkerLine(n), MarkerLine(n)[..limit];
    var got := LastIndex(body, MARKER_PREFIX);
    MarkerIsLine(n);
    if limit >= 30 { CutMentions(n, limit); }
    CutLength(n);
    if limit == |m| {
      assert body == [] + m + [];
      EmptyMentionsNothing();
      SizeReadBack([], n, []);
    } else if got >= 0 {
      CutMention(n, limit, got);
      assert limit >= 30;
      CutRest(n, limit);
      if limit + 1 == |m| {
        DigitsThenSuffix(n, []);
        OwnRest(body, 1, MARKER_PREFIX, MARKER_SUFFIX, Digits(n));
      } else {
        CutUnnamed(n, limit);
        NoNumber(body[30..], MARKER_SUFFIX);
      }
    }
  }

  lemma {:induction false} CutMentions(n: nat, limit: nat)
    requires 30 <= limit <= |MarkerLine(n)|
    ensures At(MarkerLine(n)[..limit], MARKER_PREFIX, 1)
  {
    assert MarkerLine(n)[..limit][1..30] == MARKER_PREFIX;
  }

  lemma {:induction false} CutLength(n: nat)
    ensures |MarkerLine(n)| > 31
  {
    MarkerIsLine(n);
  }

  lemma {:induction false} NoNumber(rest: seq<Byte>, suffix: seq<Byte>)
    requires Index(rest, suffix) == -1
    ensures NumberBefore(rest, suffix) == 0
  {
  }

  /** For every truncated payload: a body that is only a cut marker gives the size
      back exactly when at most its last newline is missing; any other body exactly
      when the kept tail has no marker of its own or one that names the same size. */
  lemma {:induction false} TruncatedSizeReadBack(value: seq<Byte>, limit: int, t: Truncation)
    requires |value| <= MAX_INT && Truncated(value, limit, t) && t.truncated
    ensures limit <= |MarkerLine(|value|)| ==> (OriginalBytes(t.body) == |value| <==> limit + 1 >= |MarkerLine(|value|)|)
    ensures limit > |MarkerLine(|value|)| ==>
              forall k: nat :: LongestSuffix(value, TailBudget(value, limit), k) ==>
                (OriginalBytes(t.body) == |value|
                 <==> !Contains(value[k..], MARKER_PREFIX) || OriginalBytes(value[k..]) == |value|)
  {
    hide OriginalBytes, Contains, MarkerLine;
    if limit <= |MarkerLine(|value|)| {
      CutMarkerSize(|value|, limit);
    } else {
      var h: nat, k: nat :| Halves(value, limit - |MarkerLine(|value|)|, h, k)
                            && t.body == value[..h] + MarkerLine(|value|) + value[k..];
      SizeReadBack(value[..h], |value|, value[k..]);
    }
  }

  /** The bytes left for the tail when the marker fits. */
  function TailBudget(value: seq<Byte>, limit: int): nat
    requires limit > |MarkerLine(|value|)|
  {
    var budget := limit - |MarkerLine(|value|)|;
    budget - budget / 2
  }

  /** A tail that reads like a marker is believed. */
  lemma {:induction false} ForgedTail(head: seq<Byte>, n: nat)
    requires 1 < n <= MAX_INT
    ensures OriginalBytes(head + MarkerLine(n) + MarkerLine(1)) == 1 != n
  {
    hide MarkerLine, OriginalBytes;
    SizeReadBack(head, n, MarkerLine(1));
    SizeReadBack([], 1, []);
    MarkerStands([], 1, []);
    assert [] + MarkerLine(1) + [] == MarkerLine(1);
    EmptyMentionsNothing();
  }

  lemma {:induction false} EmptyMentionsNothing()
    ensures !Contains([], MARKER_PREFIX)
  {
  }

  lemma {:induction false} AsciiBackBoundaries(s: seq<Byte>, k: nat)
    requires k <= |s| && forall i :: 0 <= i < |s| ==> s[i] < 0x80
    ensures BackBoundary(s, k)
    decreases |s|
  {
    if k < |s| {
      assert LastSize(s) == 1;
      AsciiBackBoundaries(s[..|s| - 1], k);
    }
  }

  /** A payload of n bytes that ends like a marker. */
  function Forged(n: nat): (value: seq<Byte>)
    requires n >= |MarkerLine(1)|
    ensures |value| == n && value[n - |MarkerLine(1)|..] == MarkerLine(1) && forall i :: 0 <= i < n ==> value[i] < 0x80
  {
    seq(n - |MarkerLine(1)|, _ => 97) + MarkerLine(1)
  }

  /** Such a payload, truncated so that its ending is kept, has lost its size. */
  lemma {:induction false} ForgedPayloadLosesSize(n: nat, t: Truncation)
    requires 1 < n <= MAX_INT && n > |MarkerLine(n)| + 2 * |MarkerLine(1)|
    requires Truncated(Forged(n), |MarkerLine(n)| + 2 * |MarkerLine(1)|, t)
    ensures t.truncated && OriginalBytes(t.body) == 1 != t.originalBytes
  {
    var value, size := Forged(n), |MarkerLine(1)|;
    var limit := |MarkerLine(n)| + 2 * size;
    assert |value| == n && size > 0 && 0 < limit < n;
    hide MarkerLine, OriginalBytes, LongestPrefix, Forged;
    var budget := limit - |MarkerLine(|value|)|;
    var h: nat, k: nat :| Halves(value, budget, h, k) && t.body == value[..h] + MarkerLine(|value|) + value[k..];
    assert budget - budget / 2 == size;
    AsciiBackBoundaries(value, n - size);
    assert k == n - size;
    ForgedTail(value[..h], n);
  }
}
