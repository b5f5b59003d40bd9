/** The canonical order of memories that supersede each other: of the memories whose
    superseded one is out, roots come first, then the smaller identifier. */
module SupersessionOrder {
  /** A memory and the one it supersedes; an empty name means none. */
  datatype Row = Row(id: string, parent: string)

  // ---- Names --------------------------------------------------------------------

  predicate Less(a: string, b: string)
    decreases |a|
  {
    if b == "" then false else if a == "" then true
    else a[0] < b[0] || (a[0] == b[0] && Less(a[1..], b[1..]))
  }

  lemma {:induction false} LessIrreflexive(a: string)
    ensures !Less(a, a)
  {
    if a != "" { LessIrreflexive(a[1..]); }
  }

  lemma {:induction false} LessTotal(a: string, b: string)
    ensures Less(a, b) || a == b || Less(b, a)
    ensures !(Less(a, b) && Less(b, a))
    decreases |a|
  {
    if a != "" && b != "" {
      LessTotal(a[1..], b[1..]);
      if a[0] == b[0] && a[1..] == b[1..] { assert a == [a[0]] + a[1..] && b == [b[0]] + b[1..]; }
    }
  }

  lemma {:induction false} LessTransitive(a: string, b: string, c: string)
    requires Less(a, b) && Less(b, c)
    ensures Less(a, c)
    decreases |a|
  {
    if a != "" && a[0] == b[0] && b[0] == c[0] { LessTransitive(a[1..], b[1..], c[1..]); }
  }

  // ---- The order of ready rows ----------------------------------------------------

  predicate Before(a: Row, b: Row)
  {
    if (a.parent == "") != (b.parent == "") then a.parent == "" else Less(a.id, b.id)
  }

  lemma {:induction false} BeforeTotal(a: Row, b: Row)
    ensures Before(a, b) || a.id == b.id || Before(b, a)
    ensures !(Before(a, b) && Before(b, a)) && !Before(a, a)
  {
    LessTotal(a.id, b.id);
    LessIrreflexive(a.id);
  }

  lemma {:induction false} BeforeTransitive(a: Row, b: Row, c: Row)
    requires Before(a, b) && Before(b, c)
    ensures Before(a, c)
  {
    if Less(a.id, b.id) && Less(b.id, c.id) { LessTransitive(a.id, b.id, c.id); }
  }

  // ---- Bundles --------------------------------------------------------------------

  type Bundle = map<string, Row>

  predicate Named(m: Bundle) { forall id :: id in m ==> m[id].id == id && id != "" }

  /** Not out yet, and not held back by a memory of the bundle that is not out. */
  predicate Free(m: Bundle, done: set<string>, id: string)
  {
    id in m && id !in done && (m[id].parent !in m || m[id].parent in done)
  }

  function FreeSet(m: Bundle, done: set<string>): set<string> { set id | id in m && Free(m, done, id) }

  predicate IsLeast(m: Bundle, s: set<string>, id: string)
    requires s <= m.Keys
  {
    id in s && forall x :: x in s && x != id ==> Before(m[id], m[x])
  }

  lemma {:induction false} LeastExists(m: Bundle, s: set<string>) returns (id: string)
    requires Named(m) && s <= m.Keys && s != {}
    ensures IsLeast(m, s, id)
    decreases |s|
  {
    id :| id in s;
    if s != {id} {
      var rest := LeastExists(m, s - {id});
      BeforeTotal(m[id], m[rest]);
      if Before(m[id], m[rest]) {
        forall x | x in s && x != id ensures Before(m[id], m[x]) {
          if x != rest { BeforeTransitive(m[id], m[rest], m[x]); }
        }
      } else {
        id := rest;
      }
    }
  }

  lemma {:induction false} LeastUnique(m: Bundle, s: set<string>, a: string, b: string)
    requires s <= m.Keys && IsLeast(m, s, a) && IsLeast(m, s, b)
    ensures a == b
  {
    BeforeTotal(m[a], m[b]);
  }

  ghost function Least(m: Bundle, s: set<string>): (id: string)
    requires Named(m) && s <= m.Keys && s != {}
    ensures IsLeast(m, s, id)
  {
    var any := (LeastExistsFor(m, s); true);
    var id :| IsLeast(m, s, id);
    id
  }

  lemma {:induction false} LeastExistsFor(m: Bundle, s: set<string>)
    requires Named(m) && s <= m.Keys && s != {}
    ensures exists id :: IsLeast(m, s, id)
  {
    var id := LeastExists(m, s);
  }

  /** Again and again the least of the free memories. */
  ghost function Greedy(m: Bundle, done: set<string>): seq<string>
    requires Named(m) && done <= m.Keys
    decreases |m.Keys - done|
  {
    var free := FreeSet(m, done);
    if free == {} then []
    else
      var id := Least(m, free);
      Shrinks(m.Keys, done, id);
      [id] + Greedy(m, done + {id})
  }

  lemma {:induction false} Shrinks(keys: set<string>, done: set<string>, id: string)
    requires id in keys && id !in done
    ensures |keys - (done + {id})| < |keys - done|
  {
    assert keys - done == keys - (done + {id}) + {id};
  }

  ghost function Members(ids: seq<string>): set<string> { set id | id in ids }

  // ---- What the greedy order promises -----------------------------------------------

  /** No member twice, none that was out, and each after the one it supersedes. */
  ghost predicate Sound(m: Bundle, done: set<string>, ids: seq<string>)
  {
    (forall i :: 0 <= i < |ids| ==> ids[i] in m && ids[i] !in done)
    && (forall i, j :: 0 <= i < j < |ids| ==> ids[i] != ids[j])
    && (forall j :: 0 <= j < |ids| && ids[j] in m && m[ids[j]].parent in m && m[ids[j]].parent !in done ==>
          exists i :: 0 <= i < j && ids[i] == m[ids[j]].parent)
  }

  lemma {:induction false} SoundFirst(m: Bundle, done: set<string>, id: string, rest: seq<string>)
    requires Free(m, done, id) && Sound(m, done + {id}, rest)
    ensures Sound(m, done, [id] + rest)
  {
    var ids := [id] + rest;
    forall j | 0 <= j < |ids| && ids[j] in m && m[ids[j]].parent in m && m[ids[j]].parent !in done
      ensures exists i :: 0 <= i < j && ids[i] == m[ids[j]].parent
    {
      if m[ids[j]].parent == id {
        assert ids[0] == id;
      } else {
        assert ids[j] == rest[j - 1];
        var i :| 0 <= i < j - 1 && rest[i] == m[rest[j - 1]].parent;
        assert ids[i + 1] == m[ids[j]].parent;
      }
    }
  }

  lemma {:induction false} GreedyIsSound(m: Bundle, done: set<string>)
    requires Named(m) && done <= m.Keys
    ensures Sound(m, done, Greedy(m, done))
    decreases |m.Keys - done|
  {
    if FreeSet(m, done) == {} {
      SoundNothing(m, done);
    } else {
      var id := Least(m, FreeSet(m, done));
      LeastIsFree(m, done);
      hide Sound, IsLeast, FreeSet, Free;
      Shrinks(m.Keys, done, id);
      GreedyIsSound(m, done + {id});
      SoundFirst(m, done, id, Greedy(m, done + {id}));
    }
  }

  /** It stops only when no member is free. */
  lemma {:induction false} GreedyEmpties(m: Bundle, done: set<string>)
    requires Named(m) && done <= m.Keys
    ensures FreeSet(m, done + Members(Greedy(m, done))) == {}
    decreases |m.Keys - done|
  {
    if FreeSet(m, done) == {} {
      assert done + Members(Greedy(m, done)) == done;
    } else {
      var id := Least(m, FreeSet(m, done));
      LeastIsFree(m, done);
      assert id in m.Keys - done;
      hide IsLeast, FreeSet, Free, Members;
      Shrinks(m.Keys, done, id);
      GreedyEmpties(m, done + {id});
      var rest := Greedy(m, done + {id});
      assert Greedy(m, done) == [id] + rest;
      MembersFirst(id, rest);
      Regroup(done, id, Members(rest));
    }
  }

  lemma {:induction false} Regroup(done: set<string>, id: string, rest: set<string>)
    ensures done + ({id} + rest) == done + {id} + rest
  {
  }

  lemma {:induction false} SoundNothing(m: Bundle, done: set<string>)
    ensures Sound(m, done, [])
  {
  }

  lemma {:induction false} LeastIsFree(m: Bundle, done: set<string>)
    requires Named(m) && FreeSet(m, done) != {}
    ensures Free(m, done, Least(m, FreeSet(m, done)))
  {
  }

  lemma {:induction false} MembersFirst(id: string, rest: seq<string>)
    ensures Members([id] + rest) == {id} + Members(rest)
  {
  }

  // ---- Cycles -----------------------------------------------------------------------

  /** Memories of the bundle that supersede each other in a ring. */
  predicate Ring(m: Bundle, c: seq<string>)
  {
    c != [] && (forall i :: 0 <= i < |c| ==> c[i] in m)
    && (forall i :: 0 <= i < |c| - 1 ==> m[c[i]].parent == c[i + 1]) && m[c[|c| - 1]].parent == c[0]
  }

  ghost predicate Cyclic(m: Bundle) { exists c :: Ring(m, c) }

  /** A member of a ring waits for the next one, so none ever gets out. */
  lemma {:induction false} RingStays(m: Bundle, done: set<string>, c: seq<string>)
    requires Named(m) && done <= m.Keys && Ring(m, c) && forall i :: 0 <= i < |c| ==> c[i] !in done
    ensures forall i :: 0 <= i < |c| ==> c[i] !in Members(Greedy(m, done))
    decreases |m.Keys - done|
  {
    var free := FreeSet(m, done);
    if free != {} {
      var id := Least(m, free);
      Shrinks(m.Keys, done, id);
      forall i | 0 <= i < |c| ensures c[i] != id {
        assert m[c[i]].parent == c[if i < |c| - 1 then i + 1 else 0];
      }
      RingStays(m, done + {id}, c);
      assert Members(Greedy(m, done)) == {id} + Members(Greedy(m, done + {id}));
    }
  }

  /** More names than members: one occurs twice. */
  lemma {:induction false} Pigeonhole(s: seq<string>, members: set<string>) returns (i: nat, j: nat)
    requires |s| > |members| && forall k :: 0 <= k < |s| ==> s[k] in members
    ensures i < j < |s| && s[i] == s[j]
    decreases |s|
  {
    var last := s[|s| - 1];
    if k :| 0 <= k < |s| - 1 && s[k] == last {
      i, j := k, |s| - 1;
    } else {
      i, j := Pigeonhole(s[..|s| - 1], members - {last});
    }
  }

  /** The chain of superseded memories from one that waits. */
  ghost function Chain(m: Bundle, id: string, n: nat): seq<string>
    decreases n
  {
    if n == 0 || id !in m then [id] else [id] + Chain(m, m[id].parent, n - 1)
  }

  lemma {:induction false} ChainStays(m: Bundle, waiting: set<string>, id: string, n: nat)
    requires waiting <= m.Keys && id in waiting && forall x :: x in waiting ==> m[x].parent in waiting
    ensures var c := Chain(m, id, n);
            |c| == n + 1 && (forall k :: 0 <= k < |c| ==> c[k] in waiting) && (forall k :: 0 <= k < n ==> m[c[k]].parent == c[k + 1]) && c[0] == id
    decreases n
  {
    if n > 0 { ChainStays(m, waiting, m[id].parent, n - 1); }
  }

  lemma {:induction false} WaitingHasParents(m: Bundle, done: set<string>, x: string)
    requires FreeSet(m, done) == {} && x in m && x !in done
    ensures m[x].parent in m && m[x].parent !in done
  {
    assert x !in FreeSet(m, done);
  }

  lemma {:induction false} RingIn(m: Bundle, c: seq<string>, i: nat, j: nat)
    requires i < j < |c| && c[i] == c[j] && forall k :: 0 <= k < |c| ==> c[k] in m
    requires forall k :: 0 <= k < |c| - 1 ==> m[c[k]].parent == c[k + 1]
    ensures Ring(m, c[i..j])
  {
    assert m[c[j - 1]].parent == c[j];
  }

  /** If members wait and none is free, some of them wait in a ring. */
  lemma {:induction false} WaitingMeansCyclic(m: Bundle, done: set<string>)
    requires Named(m) && done <= m.Keys && FreeSet(m, done) == {} && done != m.Keys
    ensures Cyclic(m)
  {
    var waiting := m.Keys - done;
    assert m.Keys == done + waiting;
    var id :| id in waiting;
    forall x | x in waiting ensures m[x].parent in waiting { WaitingHasParents(m, done, x); }
    hide FreeSet, Chain, Ring;
    ChainStays(m, waiting, id, |waiting|);
    var c := Chain(m, id, |waiting|);
    var i, j := Pigeonhole(c, waiting);
    RingIn(m, c, i, j);
  }

  /** The greedy order takes out the whole bundle exactly when there is no cycle. */
  lemma {:induction false} CompleteUnlessCyclic(m: Bundle)
    requires Named(m)
    ensures Members(Greedy(m, {})) == m.Keys <==> !Cyclic(m)
  {
    GreedyIsSound(m, {});
    GreedyEmpties(m, {});
    var out := Members(Greedy(m, {}));
    assert {} + out == out;
    if out != m.Keys {
      WaitingMeansCyclic(m, out);
    }
    if Cyclic(m) {
      var c :| Ring(m, c);
      RingStays(m, {}, c);
      assert c[0] in m && c[0] !in out;
    }
  }
}
