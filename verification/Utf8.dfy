/** Runes in byte strings: the sizes Go's decoder reports, forwards and backwards, over
    the well-formed sequences of section 4 of RFC 3629. */
module Utf8 {
  type Byte = x: nat | x < 256

  predicate Tail(b: Byte) { 0x80 <= b <= 0xBF }

  /** Whether the string starts with a well-formed rune of n bytes. */
  predicate StartsWell(s: seq<Byte>, n: nat)
  {
    n <= |s|
    && match n
       case 1 => s[0] < 0x80
       case 2 => 0xC2 <= s[0] <= 0xDF && Tail(s[1])
       case 3 =>
         Tail(s[2])
         && ((s[0] == 0xE0 && 0xA0 <= s[1] <= 0xBF) || (0xE1 <= s[0] <= 0xEC && Tail(s[1]))
             || (s[0] == 0xED && 0x80 <= s[1] <= 0x9F) || (0xEE <= s[0] <= 0xEF && Tail(s[1])))
       case 4 =>
         Tail(s[2]) && Tail(s[3])
         && ((s[0] == 0xF0 && 0x90 <= s[1] <= 0xBF) || (0xF1 <= s[0] <= 0xF3 && Tail(s[1]))
             || (s[0] == 0xF4 && 0x80 <= s[1] <= 0x8F))
       case _ => false
  }

  /** The size of the first rune; a byte that starts none counts by itself. */
  function FirstSize(s: seq<Byte>): (n: nat)
    ensures n <= |s| && n <= 4 && (n == 0 <==> s == [])
    ensures n > 1 ==> StartsWell(s, n)
  {
    if s == [] then 0
    else if StartsWell(s, 2) then 2
    else if StartsWell(s, 3) then 3
    else if StartsWell(s, 4) then 4
    else 1
  }

  /** The nearest byte that can start a rune, at most four from the end. */
  function LastStart(s: seq<Byte>, at: nat): (k: nat)
    requires at < |s|
    ensures k <= at && (forall i :: k < i <= at ==> Tail(s[i])) && (Tail(s[k]) ==> k == 0 || k + 4 == |s|)
  {
    if !Tail(s[at]) || at == 0 || at + 4 == |s| then at else LastStart(s, at - 1)
  }

  /** The size of the last rune. */
  function LastSize(s: seq<Byte>): (n: nat)
    ensures n <= |s| && n <= 4 && (n == 0 <==> s == [])
  {
    if s == [] then 0
    else if s[|s| - 1] < 0x80 then 1
    else
      var k := LastStart(s, |s| - 1);
      if k + FirstSize(s[k..]) == |s| && |s| - k <= 4 then |s| - k else 1
  }

  predicate Valid(s: seq<Byte>)
    decreases |s|
  {
    s == [] || exists n | 1 <= n <= 4 :: StartsWell(s, n) && Valid(s[n..])
  }

  /** Positions between runes, reading forwards. */
  predicate Boundary(s: seq<Byte>, k: nat)
    decreases |s|
  {
    k == 0 || (s != [] && FirstSize(s) <= k && Boundary(s[FirstSize(s)..], k - FirstSize(s)))
  }

  /** Positions between runes, reading backwards from the end. */
  predicate BackBoundary(s: seq<Byte>, k: nat)
    decreases |s|
  {
    k == |s| || (s != [] && k + LastSize(s) <= |s| && BackBoundary(s[..|s| - LastSize(s)], k))
  }

  // ---- Facts ----------------------------------------------------------------------

  lemma {:induction false} WellStartIsUnique(s: seq<Byte>, a: nat, b: nat)
    requires StartsWell(s, a) && StartsWell(s, b)
    ensures a == b
  {
  }

  /** A valid string starts with the rune the decoder sees. */
  lemma {:induction false} ValidFirst(s: seq<Byte>)
    requires Valid(s) && s != []
    ensures StartsWell(s, FirstSize(s)) && Valid(s[FirstSize(s)..])
  {
    var n :| 1 <= n <= 4 && StartsWell(s, n) && Valid(s[n..]);
  }

  lemma {:induction false} FirstRune(s: seq<Byte>) returns (n: nat)
    requires Valid(s) && s != []
    ensures 1 <= n <= |s| && n == FirstSize(s) && StartsWell(s, n) && Valid(s[n..])
  {
    ValidFirst(s);
    n := FirstSize(s);
  }

  lemma {:induction false} BoundaryInRange(s: seq<Byte>, k: nat)
    requires Boundary(s, k)
    ensures k <= |s|
    decreases |s|
  {
    if k > 0 { BoundaryInRange(s[FirstSize(s)..], k - FirstSize(s)); }
  }

  lemma {:induction false} WellExtends(a: seq<Byte>, b: seq<Byte>, n: nat)
    requires n <= |a|
    ensures StartsWell(a, n) <==> StartsWell(a + b, n)
  {
    assert forall i :: 0 <= i < |a| ==> (a + b)[i] == a[i];
  }

  lemma {:induction false} WellSize(s: seq<Byte>, n: nat)
    requires StartsWell(s, n)
    ensures 1 <= n <= 4 && n <= |s|
  {
  }

  lemma {:induction false} ValidMore(s: seq<Byte>, n: nat)
    requires StartsWell(s, n) && n <= |s| && Valid(s[n..])
    ensures Valid(s)
  {
    WellSize(s, n);
  }

  /** Cutting a valid string between runes leaves two valid strings. */
  lemma {:induction false} ValidParts(s: seq<Byte>, k: nat)
    requires Valid(s) && Boundary(s, k)
    ensures k <= |s| && Valid(s[..k]) && Valid(s[k..])
    decreases |s|
  {
    BoundaryInRange(s, k);
    if k == 0 {
      assert s[..0] == [] && s[0..] == s;
    } else {
      var n := FirstRune(s);
      BoundaryNext(s, k, n);
      ValidParts(s[n..], k - n);
      assert s[n..][k - n..] == s[k..];
      ValidCut(s, n, k);
    }
  }

  lemma {:induction false} ValidCut(s: seq<Byte>, n: nat, k: nat)
    requires n <= k <= |s| && StartsWell(s, n) && Valid(s[n..][..k - n])
    ensures Valid(s[..k])
  {
    hide StartsWell;
    assert s[..k][n..] == s[n..][..k - n];
    assert s[..k] + s[k..] == s;
    WellExtends(s[..k], s[k..], n);
    ValidMore(s[..k], n);
  }

  lemma {:induction false} BoundaryNext(s: seq<Byte>, k: nat, n: nat)
    requires Boundary(s, k) && k > 0 && n == FirstSize(s)
    ensures n <= k && Boundary(s[n..], k - n)
  {
  }

  lemma {:induction false} ValidConcat(a: seq<Byte>, b: seq<Byte>)
    requires Valid(a) && Valid(b)
    ensures Valid(a + b)
    decreases |a|
  {
    hide StartsWell, FirstSize;
    if a == [] {
      assert a + b == b;
    } else {
      var n := FirstRune(a);
      ValidConcat(a[n..], b);
      assert (a + b)[n..] == a[n..] + b;
      WellExtends(a, b, n);
      ValidMore(a + b, n);
    }
  }

  lemma {:induction false} AsciiIsValid(s: seq<Byte>)
    requires forall i :: 0 <= i < |s| ==> s[i] < 0x80
    ensures Valid(s)
    decreases |s|
  {
    if s != [] {
      AsciiIsValid(s[1..]);
      assert StartsWell(s, 1);
    }
  }

  lemma {:induction false} OneRune(s: seq<Byte>, n: nat)
    requires n <= |s| && StartsWell(s, n)
    ensures Valid(s[..n])
  {
    assert s[..n] + s[n..] == s && s[..n][n..] == [];
    WellExtends(s[..n], s[n..], n);
    ValidMore(s[..n], n);
  }

  /** A valid string is a valid string and one more rune. */
  lemma {:induction false} ValidLast(s: seq<Byte>) returns (k: nat)
    requires Valid(s) && s != []
    ensures k < |s| && Valid(s[..k]) && StartsWell(s[k..], |s| - k)
    decreases |s|
  {
    hide StartsWell, FirstSize;
    var n := FirstRune(s);
    if n == |s| {
      k := 0;
      assert s[..0] == [] && s[0..] == s;
    } else {
      var k' := ValidLast(s[n..]);
      k := n + k';
      assert s[n..][k'..] == s[k..];
      assert s[..k] == s[..n] + s[n..][..k'];
      OneRune(s, n);
      ValidConcat(s[..n], s[n..][..k']);
    }
  }

  /** Of a valid string, the decoder finds the last rune. */
  lemma {:induction false} LastSizeIsRune(s: seq<Byte>, k: nat)
    requires k < |s| && StartsWell(s[k..], |s| - k)
    ensures LastSize(s) == |s| - k
  {
    var r := s[k..];
    assert forall i :: k < i < |s| ==> s[i] == r[i - k] && Tail(s[i]);
    assert s[k] == r[0] && !Tail(s[k]);
    assert FirstSize(r) == |r| by { WellStartIsUnique(r, |r|, |r|); }
    if s[|s| - 1] < 0x80 {
      assert k == |s| - 1;
    } else {
      LastStartFinds(s, |s| - 1, k);
    }
  }

  lemma {:induction false} LastStartFinds(s: seq<Byte>, at: nat, k: nat)
    requires k <= at < |s| && |s| - k <= 4 && !Tail(s[k]) && forall i :: k < i <= at ==> Tail(s[i])
    ensures LastStart(s, at) == k
    decreases at
  {
    if at > k { LastStartFinds(s, at - 1, k); }
  }

  lemma {:induction false} BackInRange(s: seq<Byte>, k: nat)
    requires BackBoundary(s, k)
    ensures k <= |s|
    decreases |s|
  {
  }

  /** Cutting a valid string where the backward decoder stops leaves valid strings. */
  lemma {:induction false} ValidBackParts(s: seq<Byte>, k: nat)
    requires Valid(s) && BackBoundary(s, k)
    ensures k <= |s| && Valid(s[..k]) && Valid(s[k..])
    decreases |s|
  {
    BackInRange(s, k);
    if k == |s| {
      assert s[..k] == s && s[k..] == [];
    } else {
      var cut := ValidLast(s);
      LastSizeIsRune(s, cut);
      hide StartsWell, FirstSize, LastSize, Valid;
      BackInRange(s[..cut], k);
      ValidBackParts(s[..cut], k);
      assert s[..cut][..k] == s[..k];
      assert s[k..] == s[..cut][k..] + s[cut..];
      OneRune(s[cut..], |s| - cut);
      assert s[cut..][..|s| - cut] == s[cut..];
      ValidConcat(s[..cut][k..], s[cut..]);
    }
  }
}
