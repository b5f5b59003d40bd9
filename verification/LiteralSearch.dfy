/** Literal search: one normalisation for queries and texts, fingerprints that may
    narrow candidates, and the phrase predicate that must agree with it. Text is a
    sequence of runes; the digest and the Unicode case tables are parameters. */
module LiteralSearch {
  type Rune = nat
  type Text = seq<Rune>

  const MAX_FINGERPRINTS: nat := 128
  const MAX_QUERY_BYTES: nat := 65536

  // ---- Normalisation --------------------------------------------------------------

  predicate Space(r: Rune)
  {
    9 <= r <= 13 || r == 32 || r == 0x85 || r == 0xA0 || r == 0x1680 || 0x2000 <= r <= 0x200A
    || r == 0x2028 || r == 0x2029 || r == 0x202F || r == 0x205F || r == 0x3000
  }

  function FoldRune(r: Rune): Rune { if 65 <= r <= 90 then r + 32 else r }

  function Fold(s: Text): (t: Text)
    ensures |t| == |s| && forall i :: 0 <= i < |s| ==> t[i] == FoldRune(s[i])
  {
    seq(|s|, i requires 0 <= i < |s| => FoldRune(s[i]))
  }

  /** How many spaces lead. */
  function Lead(s: Text): (n: nat)
    ensures n <= |s| && (forall i :: 0 <= i < n ==> Space(s[i])) && (n < |s| ==> !Space(s[n]))
  {
    if s == [] || !Space(s[0]) then 0 else 1 + Lead(s[1..])
  }

  /** Where the trailing spaces begin. */
  function Trail(s: Text): (n: nat)
    ensures n <= |s| && (forall i :: n <= i < |s| ==> Space(s[i])) && (n > 0 ==> !Space(s[n - 1]))
  {
    if s == [] || !Space(s[|s| - 1]) then |s| else Trail(s[..|s| - 1])
  }

  function Trim(s: Text): Text { if Lead(s) <= Trail(s) then s[Lead(s)..Trail(s)] else [] }

  function Canonical(raw: Text): Text { Fold(Trim(raw)) }

  function RuneBytes(r: Rune): nat { if r < 0x80 then 1 else if r < 0x800 then 2 else if r < 0x1_0000 then 3 else 4 }

  function ByteLength(s: Text): nat { if s == [] then 0 else ByteLength(s[..|s| - 1]) + RuneBytes(s[|s| - 1]) }

  predicate OccursAt(s: Text, needle: Text, i: nat) { i + |needle| <= |s| && s[i..i + |needle|] == needle }

  predicate Occurs(s: Text, needle: Text) { exists i: nat | i <= |s| :: OccursAt(s, needle, i) }

  // ---- Queries --------------------------------------------------------------------

  datatype Query<D> = Query(canonical: Text, filterable: bool, fingerprints: seq<D>)

  /** Canonical literal semantics. */
  predicate Contains<D>(q: Query<D>, needle: Query<D>)
  {
    needle.canonical != [] && Occurs(q.canonical, needle.canonical)
  }

  predicate Stable(s: Text, changes: Rune -> bool) { forall r :: r in s ==> !(r > 127 && changes(r)) }

  function Gram<D>(s: Text, digest: Text -> D, i: nat): D
    requires i + 3 <= |s|
  {
    digest(s[i..i + 3])
  }

  /** The digests of the grams that begin before a position. */
  function Grams<D>(s: Text, digest: Text -> D, n: nat): set<D>
  {
    set i | 0 <= i < n && i + 3 <= |s| :: Gram(s, digest, i)
  }

  function Elements<D>(s: seq<D>): set<D> { set d | d in s }

  ghost predicate Distinct<D>(s: seq<D>) { forall i, j :: 0 <= i < j < |s| ==> s[i] != s[j] }

  /** What a characterised literal is: fingerprints only for a bounded literal of three
      runes or more without case-changing runes, and then exactly those of its grams. */
  ghost predicate Characterizes<D>(raw: Text, changes: Rune -> bool, digest: Text -> D, q: Query<D>)
  {
    var c := Canonical(raw);
    q.canonical == c
    && (q.filterable <==> ByteLength(c) <= MAX_QUERY_BYTES && |c| >= 3 && Stable(c, changes) && |Grams(c, digest, |c|)| <= MAX_FINGERPRINTS)
    && (!q.filterable ==> q.fingerprints == [])
    && (q.filterable ==> Distinct(q.fingerprints) && Elements(q.fingerprints) == Grams(c, digest, |c|))
  }

  method CaseStable(c: Text, changes: Rune -> bool) returns (stable: bool)
    ensures stable == Stable(c, changes)
  {
    stable := true;
    var i := 0;
    while i < |c|
      invariant 0 <= i <= |c| && stable && forall k :: 0 <= k < i ==> !(c[k] > 127 && changes(c[k]))
    {
      if c[i] > 127 && changes(c[i]) {
        stable := false;
        break;
      }
      i := i + 1;
    }
  }

  lemma {:induction false} ElementsMore<D>(s: seq<D>, d: D)
    ensures Elements(s + [d]) == Elements(s) + {d}
  {
  }

  lemma {:induction false} DistinctSize<D>(s: seq<D>)
    requires Distinct(s)
    ensures |Elements(s)| == |s|
    decreases |s|
  {
    if s != [] {
      var rest, last := s[..|s| - 1], s[|s| - 1];
      DistinctSize(rest);
      assert s == rest + [last];
      ElementsMore(rest, last);
      assert last !in Elements(rest);
    }
  }

  lemma {:induction false} GramsGrow<D>(s: Text, digest: Text -> D, n: nat)
    requires n + 3 <= |s|
    ensures Grams(s, digest, n + 1) == Grams(s, digest, n) + {Gram(s, digest, n)}
  {
  }

  lemma {:induction false} GramsMore<D>(s: Text, digest: Text -> D, n: nat)
    requires n <= |s|
    ensures |Grams(s, digest, n)| <= |Grams(s, digest, |s|)|
    ensures n + 2 >= |s| ==> Grams(s, digest, n) == Grams(s, digest, |s|)
  {
    var a, b := Grams(s, digest, n), Grams(s, digest, |s|);
    assert b == a + (b - a);
  }

  /** Derives the fingerprints, giving up past the bound. */
  method Fingerprint<D(==)>(c: Text, digest: Text -> D) returns (ok: bool, fingerprints: seq<D>)
    requires |c| >= 3
    ensures ok <==> |Grams(c, digest, |c|)| <= MAX_FINGERPRINTS
    ensures ok ==> Distinct(fingerprints) && Elements(fingerprints) == Grams(c, digest, |c|)
  {
    hide Grams, Gram, Elements;
    fingerprints := [];
    NoGrams(c, digest);
    var i := 0;
    while i + 3 <= |c|
      invariant 0 <= i <= |c| - 2 && Elements(fingerprints) == Grams(c, digest, i)
      invariant Distinct(fingerprints) && |fingerprints| <= MAX_FINGERPRINTS
    {
      var fp := Gram(c, digest, i);
      GramsGrow(c, digest, i);
      ElementsMore(fingerprints, fp);
      KnownAlready(fingerprints, fp);
      if fp !in fingerprints {
        fingerprints := fingerprints + [fp];
        DistinctSize(fingerprints);
        if |fingerprints| > MAX_FINGERPRINTS {
          GramsMore(c, digest, i + 1);
          return false, [];
        }
      }
      i := i + 1;
    }
    GramsMore(c, digest, i);
    DistinctSize(fingerprints);
    ok := true;
  }

  lemma {:induction false} NoGrams<D>(c: Text, digest: Text -> D)
    ensures Elements<D>([]) == Grams(c, digest, 0) && Distinct<D>([])
  {
  }

  lemma {:induction false} KnownAlready<D>(s: seq<D>, d: D)
    ensures d in s ==> Elements(s) + {d} == Elements(s)
    ensures d !in s && Distinct(s) ==> Distinct(s + [d])
  {
  }

  /** Normalises a literal and derives its fingerprints. */
  method Characterize<D(==)>(raw: Text, changes: Rune -> bool, digest: Text -> D) returns (q: Query<D>)
    ensures Characterizes(raw, changes, digest, q)
  {
    var c := Canonical(raw);
    if ByteLength(c) > MAX_QUERY_BYTES { return Query(c, false, []); }
    var caseStable := CaseStable(c, changes);
    q := Query(c, |c| >= 3 && caseStable, []);
    if !q.filterable { return; }
    var ok, fingerprints := Fingerprint(c, digest);
    q := if ok then Query(c, true, fingerprints) else Query(c, false, []);
  }

  lemma {:induction false} Slice(s: Text, a: nat, b: nat, i: nat, j: nat)
    requires a <= b <= |s| && i <= j <= b - a
    ensures s[a..b][i..j] == s[a + i..a + j]
  {
    var x, y := s[a..b][i..j], s[a + i..a + j];
    forall k | 0 <= k < j - i ensures x[k] == y[k] {
      assert x[k] == s[a..b][i + k] && y[k] == s[a + i + k];
    }
  }

  lemma {:induction false} GramInside<D>(s: Text, n: Text, digest: Text -> D, at: nat, i: nat)
    requires OccursAt(s, n, at) && i + 3 <= |n|
    ensures Gram(s, digest, at + i) == Gram(n, digest, i) && Gram(n, digest, i) in Grams(s, digest, |s|)
  {
    Slice(s, at, at + |n|, i, i + 3);
    assert at + i + 3 == at + (i + 3);
  }

  /** If both sides are filterable and the needle occurs, its fingerprints are among
      the text's: narrowing by fingerprints never loses a match. */
  lemma {:induction false} FilterKeepsMatches<D>(raw: Text, rawNeedle: Text, changes: Rune -> bool, digest: Text -> D, q: Query<D>, needle: Query<D>)
    requires Characterizes(raw, changes, digest, q) && Characterizes(rawNeedle, changes, digest, needle)
    requires q.filterable && needle.filterable && Contains(q, needle)
    ensures forall d :: d in needle.fingerprints ==> d in q.fingerprints
  {
    var s, n := q.canonical, needle.canonical;
    var at: nat :| at <= |s| && OccursAt(s, n, at);
    forall d | d in needle.fingerprints ensures d in q.fingerprints {
      assert d in Elements(needle.fingerprints);
      var i :| 0 <= i < |n| && i + 3 <= |n| && d == Gram(n, digest, i);
      GramInside(s, n, digest, at, i);
      assert d in Elements(q.fingerprints);
    }
  }

  // ---- Phrases --------------------------------------------------------------------

  /** The phrase predicate of the search lanes folds the whole text, untrimmed. */
  predicate Matches(phrase: Text, haystack: Text) { phrase != [] && Occurs(Fold(haystack), phrase) }

  lemma {:induction false} FoldKeepsSpaces(s: Text)
    ensures forall i :: 0 <= i < |s| ==> Space(Fold(s)[i]) == Space(s[i])
  {
  }

  /** Trimming and folding commute on positions: the canonical text is a slice. */
  lemma {:induction false} CanonicalIsSlice(s: Text)
    ensures Canonical(s) != [] ==>
              Lead(s) < Trail(s) && Canonical(s) == Fold(s)[Lead(s)..Trail(s)]
              && !Space(Canonical(s)[0]) && !Space(Canonical(s)[|Canonical(s)| - 1])
  {
    FoldKeepsSpaces(s);
  }

  lemma {:induction false} InsideTrim(s: Text, i: nat, j: nat)
    requires i <= j < |s| && !Space(s[i]) && !Space(s[j])
    ensures Lead(s) <= i && j < Trail(s)
  {
  }

  lemma {:induction false} OccursTrimmed(s: Text, needle: Text, i: nat)
    requires needle != [] && !Space(needle[0]) && !Space(needle[|needle| - 1]) && OccursAt(Fold(s), needle, i)
    ensures Lead(s) <= i && i + |needle| <= Trail(s)
  {
    var f, j := Fold(s), i + |needle| - 1;
    assert f[i] == f[i..i + |needle|][0] && f[j] == f[i..i + |needle|][|needle| - 1];
    FoldKeepsSpaces(s);
    InsideTrim(s, i, j);
  }

  lemma {:induction false} OccursInSlice(f: Text, a: nat, b: nat, needle: Text, i: nat)
    requires a <= i && i + |needle| <= b <= |f| && OccursAt(f, needle, i)
    ensures OccursAt(f[a..b], needle, i - a)
  {
    var j := i - a;
    Slice(f, a, b, j, j + |needle|);
    assert a + j == i && a + (j + |needle|) == i + |needle|;
  }

  /** A needle that begins and ends with no space only occurs inside the trimmed text. */
  lemma {:induction false} OccursInside(s: Text, needle: Text, i: nat)
    requires needle != [] && !Space(needle[0]) && !Space(needle[|needle| - 1]) && OccursAt(Fold(s), needle, i)
    ensures Lead(s) <= i && OccursAt(Canonical(s), needle, i - Lead(s))
  {
    OccursTrimmed(s, needle, i);
    CanonicalIs(s);
    OccursInSlice(Fold(s), Lead(s), Trail(s), needle, i);
  }

  lemma {:induction false} CanonicalIs(s: Text)
    ensures Lead(s) <= Trail(s) ==> Trail(s) <= |s| && Canonical(s) == Fold(s)[Lead(s)..Trail(s)]
  {
  }

  lemma {:induction false} OccursOutside(s: Text, needle: Text, i: nat)
    requires Canonical(s) != [] && OccursAt(Canonical(s), needle, i)
    ensures OccursAt(Fold(s), needle, Lead(s) + i)
  {
    CanonicalIsSlice(s);
    OccursInWhole(Fold(s), Lead(s), Trail(s), needle, i);
  }

  lemma {:induction false} OccursInWhole(f: Text, a: nat, b: nat, needle: Text, i: nat)
    requires a <= b <= |f| && OccursAt(f[a..b], needle, i)
    ensures OccursAt(f, needle, a + i)
  {
    Slice(f, a, b, i, i + |needle|);
    assert a + (i + |needle|) == a + i + |needle|;
  }

  /** The phrase predicate and the literal query agree on every query and text, though
      one trims the text and the other does not. */
  lemma {:induction false} PhraseAgreesWithLiteral<D>(raw: Text, haystack: Text, changes: Rune -> bool, digest: Text -> D, q: Query<D>, needle: Query<D>)
    requires Characterizes(haystack, changes, digest, q) && Characterizes(raw, changes, digest, needle)
    ensures Matches(Canonical(raw), haystack) <==> Contains(q, needle)
  {
    var n := Canonical(raw);
    CanonicalIsSlice(raw);
    hide Canonical, Fold, Lead, Space;
    if Matches(n, haystack) {
      var i: nat :| i <= |Fold(haystack)| && OccursAt(Fold(haystack), n, i);
      OccursInside(haystack, n, i);
    }
    if Contains(q, needle) {
      var i: nat :| i <= |q.canonical| && OccursAt(q.canonical, n, i);
      OccursOutside(haystack, n, i);
    }
  }

  // ---- Case -----------------------------------------------------------------------

  /** The same rune, or an ASCII letter in its other case. */
  predicate SameLetter(a: Rune, b: Rune)
  {
    a == b || (65 <= a <= 90 && b == a + 32) || (65 <= b <= 90 && a == b + 32)
  }

  predicate SameButCase(a: Text, b: Text) { |a| == |b| && forall i :: 0 <= i < |a| ==> SameLetter(a[i], b[i]) }

  /** Folding forgets exactly the case of ASCII letters. */
  lemma {:induction false} FoldForgetsCase(a: Text, b: Text)
    ensures Fold(a) == Fold(b) <==> SameButCase(a, b)
  {
    if Fold(a) == Fold(b) {
      forall i | 0 <= i < |a| ensures SameLetter(a[i], b[i]) { assert Fold(a)[i] == Fold(b)[i]; }
    }
  }

  lemma {:induction false} TrimKeepsCase(a: Text, b: Text)
    requires SameButCase(a, b)
    ensures Lead(a) == Lead(b) && Trail(a) == Trail(b) && SameButCase(Trim(a), Trim(b))
  {
    assert forall i :: 0 <= i < |a| ==> Space(a[i]) == Space(b[i]);
  }

  /** Two texts have one canonical form exactly when, trimmed, they differ at most in
      the case of ASCII letters; so texts that differ in it alone always do. */
  lemma {:induction false} CanonicalForgetsCase(a: Text, b: Text)
    ensures Canonical(a) == Canonical(b) <==> SameButCase(Trim(a), Trim(b))
    ensures SameButCase(a, b) ==> Canonical(a) == Canonical(b)
  {
    FoldForgetsCase(Trim(a), Trim(b));
    if SameButCase(a, b) { TrimKeepsCase(a, b); }
  }

  /** A phrase is found whatever the case of its letters or of the text's. */
  lemma {:induction false} MatchingForgetsCase(raw: Text, raw': Text, haystack: Text, haystack': Text)
    requires SameButCase(raw, raw') && SameButCase(haystack, haystack')
    ensures Matches(Canonical(raw), haystack) <==> Matches(Canonical(raw'), haystack')
  {
    CanonicalForgetsCase(raw, raw');
    FoldForgetsCase(haystack, haystack');
  }
}
