/** Counting the entries of a map that satisfy a predicate. */
module Counting {
  function Where<K, V>(m: map<K, V>, p: V -> bool): set<K>
  {
    set k | k in m && p(m[k])
  }

  function Count<K, V>(m: map<K, V>, p: V -> bool): nat { |Where(m, p)| }

  function One(b: bool): nat { if b then 1 else 0 }

  /** Writing one entry moves the count by that entry alone. */
  lemma CountUpdate<K, V>(m: map<K, V>, p: V -> bool, k: K, v: V)
    ensures Count(m[k := v], p) == Count(m, p) - One(k in m && p(m[k])) + One(p(v))
  {
    var rest := Where(m, p) - {k};
    assert Where(m[k := v], p) == if p(v) then rest + {k} else rest;
    assert Where(m, p) == if k in m && p(m[k]) then rest + {k} else rest;
  }

  lemma CountZero<K, V>(m: map<K, V>, p: V -> bool)
    ensures Count(m, p) == 0 <==> forall k :: k in m ==> !p(m[k])
  {
    assert forall k :: k in Where(m, p) <==> k in m && p(m[k]);
    if Count(m, p) != 0 {
      var k :| k in Where(m, p);
    }
  }

  /** At most one entry satisfies the predicate when the count is at most one. */
  lemma CountUnique<K, V>(m: map<K, V>, p: V -> bool, a: K, b: K)
    requires Count(m, p) <= 1
    requires a in m && p(m[a]) && b in m && p(m[b])
    ensures a == b
  {
    if a != b {
      assert {a, b} <= Where(m, p);
      Subset({a, b}, Where(m, p));
    }
  }

  lemma Subset<T>(a: set<T>, b: set<T>)
    requires a <= b
    ensures |a| <= |b|
  {
    assert b == a + (b - a);
  }

  lemma {:induction false} OneMore<K, V>(m: map<K, V>, k: K, v: V)
    requires k !in m
    ensures |m[k := v]| == |m| + 1
  {
    assert m[k := v].Keys == m.Keys + {k};
    assert |m[k := v].Keys| == |m[k := v]|;
  }
}
