/** Sorting the memories of a bundle with Kahn's algorithm, proved to give the greedy
    order and to refuse exactly the bundles that have none. */
module SupersessionSort {
  import opened SupersessionOrder

  datatype Failure = EmptyId | DuplicateId | SupersessionCycle
  datatype Reply = Sorted(indexes: seq<nat>) | Refused(error: Failure)

  predicate DistinctIds(rows: seq<Row>) { forall i, j :: 0 <= i < j < |rows| ==> rows[i].id != rows[j].id }

  predicate NamedRows(rows: seq<Row>) { forall i :: 0 <= i < |rows| ==> rows[i].id != "" }

  /** The rows by name. */
  ghost function BundleOf(rows: seq<Row>): (m: Bundle)
    requires DistinctIds(rows) && NamedRows(rows)
    ensures Named(m) && (forall i :: 0 <= i < |rows| ==> rows[i].id in m && m[rows[i].id] == rows[i])
    ensures forall id :: id in m ==> exists i :: 0 <= i < |rows| && rows[i].id == id
  {
    map i | 0 <= i < |rows| :: rows[i].id := rows[i]
  }

  /** Different names: as many members as names. */
  lemma {:induction false} MembersSize(ids: seq<string>)
    requires forall i, j :: 0 <= i < j < |ids| ==> ids[i] != ids[j]
    ensures |Members(ids)| == |ids|
    decreases |ids|
  {
    if ids != [] {
      MembersSize(ids[1..]);
      MembersFirst(ids[0], ids[1..]);
      assert ids == [ids[0]] + ids[1..];
    }
  }

  predicate InRange(rows: seq<Row>, s: seq<nat>) { forall k :: 0 <= k < |s| ==> s[k] < |rows| }

  function IdsAt(rows: seq<Row>, s: seq<nat>): (ids: seq<string>)
    requires InRange(rows, s)
    ensures |ids| == |s| && forall k :: 0 <= k < |s| ==> ids[k] == rows[s[k]].id
  {
    seq(|s|, k requires 0 <= k < |s| => rows[s[k]].id)
  }

  // ---- The library sort ---------------------------------------------------------

  predicate Ordered(rows: seq<Row>, s: seq<nat>)
    requires InRange(rows, s)
  {
    forall i, j :: 0 <= i < j < |s| ==> !Before(rows[s[j]], rows[s[i]])
  }

  function Insert(rows: seq<Row>, s: seq<nat>, x: nat): (r: seq<nat>)
    requires InRange(rows, s) && x < |rows|
    ensures InRange(rows, r) && multiset(r) == multiset(s) + multiset{x}
  {
    if s == [] then [x]
    else if Before(rows[x], rows[s[0]]) then [x] + s
    else
      var rest := Insert(rows, s[1..], x);
      assert s == [s[0]] + s[1..];
      assert InRange(rows, [s[0]] + rest);
      [s[0]] + rest
  }

  /** Sorting ready rows by root first, then name. */
  function SortReady(rows: seq<Row>, s: seq<nat>): (r: seq<nat>)
    requires InRange(rows, s)
    ensures InRange(rows, r) && multiset(r) == multiset(s)
  {
    if s == [] then []
    else
      assert s == [s[0]] + s[1..];
      Insert(rows, SortReady(rows, s[1..]), s[0])
  }

  lemma {:induction false} InsertOrders(rows: seq<Row>, s: seq<nat>, x: nat)
    requires InRange(rows, s) && x < |rows| && Ordered(rows, s)
    ensures Ordered(rows, Insert(rows, s, x))
    decreases |s|
  {
    if s != [] {
      var r := Insert(rows, s, x);
      if Before(rows[x], rows[s[0]]) {
        forall j | 0 < j < |r| ensures !Before(rows[r[j]], rows[x]) {
          if Before(rows[r[j]], rows[x]) {
            BeforeTransitive(rows[r[j]], rows[x], rows[s[0]]);
            BeforeTotal(rows[s[0]], rows[s[0]]);
          }
        }
      } else {
        InsertOrders(rows, s[1..], x);
        var rest := Insert(rows, s[1..], x);
        forall j | 0 <= j < |rest| ensures !Before(rows[rest[j]], rows[s[0]]) {
          assert rest[j] in multiset(rest);
          if rest[j] != x {
            assert rest[j] in s[1..];
          }
        }
        assert r == [s[0]] + rest;
      }
    }
  }

  lemma {:induction false} SortOrders(rows: seq<Row>, s: seq<nat>)
    requires InRange(rows, s)
    ensures Ordered(rows, SortReady(rows, s))
    decreases |s|
  {
    if s != [] {
      SortOrders(rows, s[1..]);
      InsertOrders(rows, SortReady(rows, s[1..]), s[0]);
    }
  }

  // ---- Rows by name ----------------------------------------------------------------

  /** The first row that has no name, or the name of an earlier one. */
  predicate Offends(rows: seq<Row>, i: nat)
    requires i < |rows|
  {
    rows[i].id == "" || exists k :: 0 <= k < i && rows[k].id == rows[i].id
  }

  method IndexRows(rows: seq<Row>) returns (reply: Reply, indexById: map<string, nat>)
    ensures reply.Sorted? <==> DistinctIds(rows) && NamedRows(rows)
    ensures reply.Sorted? ==>
              (forall i :: 0 <= i < |rows| ==> rows[i].id in indexById && indexById[rows[i].id] == i)
              && (forall id :: id in indexById ==> indexById[id] < |rows| && rows[indexById[id]].id == id)
    ensures reply.Refused? ==>
              exists i :: 0 <= i < |rows| && Offends(rows, i) && (forall k :: 0 <= k < i ==> !Offends(rows, k))
                          && reply.error == if rows[i].id == "" then EmptyId else DuplicateId
  {
    indexById := map[];
    var i := 0;
    while i < |rows|
      invariant 0 <= i <= |rows| && (forall k :: 0 <= k < i ==> !Offends(rows, k))
      invariant forall k :: 0 <= k < i ==> rows[k].id in indexById && indexById[rows[k].id] == k
      invariant forall id :: id in indexById ==> indexById[id] < i && rows[indexById[id]].id == id
    {
      var id := rows[i].id;
      if id == "" { return Refused(EmptyId), indexById; }
      if id in indexById {
        assert rows[indexById[id]].id == rows[i].id;
        return Refused(DuplicateId), indexById;
      }
      indexById := indexById[id := i];
      i := i + 1;
    }
    assert DistinctIds(rows) && NamedRows(rows) by {
      forall a, b | 0 <= a < b < |rows| ensures rows[a].id != rows[b].id { assert !Offends(rows, b); }
      forall a | 0 <= a < |rows| ensures rows[a].id != "" { assert !Offends(rows, a); }
    }
    reply := Sorted([]);
  }

  // ---- Children and degrees ----------------------------------------------------------

  /** How many memories of the bundle still hold a row back: one or none. */
  function Degree(m: Bundle, done: set<string>, row: Row): nat
  {
    if row.parent in m && row.parent !in done then 1 else 0
  }

  /** Exactly the rows that supersede a memory, each once. */
  ghost predicate ChildrenOf(rows: seq<Row>, parent: string, s: seq<nat>)
  {
    InRange(rows, s) && (forall i, j :: 0 <= i < j < |s| ==> s[i] != s[j])
    && forall i :: 0 <= i < |rows| ==> (i in s <==> rows[i].parent == parent)
  }

  method CollectChildren(rows: seq<Row>, indexById: map<string, nat>) returns (children: map<string, seq<nat>>, indegree: array<nat>)
    requires "" !in indexById
    ensures fresh(indegree) && indegree.Length == |rows|
    ensures forall i :: 0 <= i < |rows| ==> indegree[i] == if rows[i].parent in indexById then 1 else 0
    ensures forall p :: p in children ==> ChildrenOf(rows, p, children[p])
    ensures forall i :: 0 <= i < |rows| && rows[i].parent in indexById ==> rows[i].parent in children
  {
    children := map[];
    indegree := new nat[|rows|](_ => 0);
    var i := 0;
    while i < |rows|
      invariant 0 <= i <= |rows|
      invariant forall k :: 0 <= k < |rows| ==> indegree[k] == if k < i && rows[k].parent in indexById then 1 else 0
      invariant forall p :: p in children ==> p in indexById && ChildrenOf(rows[..i], p, children[p])
      invariant forall k :: 0 <= k < i && rows[k].parent in indexById ==> rows[k].parent in children
    {
      var parent := rows[i].parent;
      ghost var before := children;
      if parent != "" && parent in indexById {
        var siblings := if parent in children then children[parent] else [];
        children := children[parent := siblings + [i]];
        indegree[i] := indegree[i] + 1;
      }
      forall p | p in children ensures ChildrenOf(rows[..i + 1], p, children[p]) {
        MoreRows(rows, i, p, if p in before then before[p] else [], children[p]);
      }
      i := i + 1;
    }
    assert rows[..|rows|] == rows;
  }

  lemma {:induction false} MoreRows(rows: seq<Row>, i: nat, p: string, s: seq<nat>, s': seq<nat>)
    requires i < |rows| && ChildrenOf(rows[..i], p, s) && s' == if rows[i].parent == p then s + [i] else s
    ensures ChildrenOf(rows[..i + 1], p, s')
  {
  }

  lemma {:induction false} SameElements(a: seq<nat>, b: seq<nat>)
    requires multiset(a) == multiset(b) && forall i, j :: 0 <= i < j < |a| ==> a[i] != a[j]
    ensures |a| == |b| && (forall x :: x in a <==> x in b) && forall i, j :: 0 <= i < j < |b| ==> b[i] != b[j]
  {
    assert |multiset(a)| == |multiset(b)|;
    forall x ensures x in a <==> x in b { assert x in multiset(a) <==> x in multiset(b); }
    forall i, j | 0 <= i < j < |b| ensures b[i] != b[j] {
      if b[i] == b[j] {
        var k := b[i];
        assert b == b[..j] + [b[j]] + b[j + 1..];
        assert k in b[..j];
        assert multiset(b)[k] >= 2;
        Once(a, k);
      }
    }
  }

  lemma {:induction false} Once(a: seq<nat>, x: nat)
    requires forall i, j :: 0 <= i < j < |a| ==> a[i] != a[j]
    ensures multiset(a)[x] <= 1
    decreases |a|
  {
    if a != [] {
      Once(a[1..], x);
      assert a == [a[0]] + a[1..];
      assert a[0] !in a[1..];
      assert multiset(a[1..])[a[0]] == 0;
    }
  }

  lemma {:induction false} SortedSiblings(rows: seq<Row>, p: string, s: seq<nat>)
    requires ChildrenOf(rows, p, s)
    ensures ChildrenOf(rows, p, SortReady(rows, s))
  {
    SameElements(s, SortReady(rows, s));
  }

  /** Siblings in the order of their names; none of them is a root. */
  method SortSiblings(rows: seq<Row>, children: map<string, seq<nat>>) returns (sorted: map<string, seq<nat>>)
    requires forall p :: p in children ==> ChildrenOf(rows, p, children[p])
    ensures sorted.Keys == children.Keys && forall p :: p in sorted ==> ChildrenOf(rows, p, sorted[p])
  {
    hide ChildrenOf, SortReady;
    sorted := children;
    var todo := children.Keys;
    while todo != {}
      invariant todo <= children.Keys == sorted.Keys && forall p :: p in sorted ==> ChildrenOf(rows, p, sorted[p])
      decreases |todo|
    {
      var p :| p in todo;
      SortedSiblings(rows, p, sorted[p]);
      InRangeOf(rows, p, sorted[p]);
      sorted := sorted[p := SortReady(rows, sorted[p])];
      todo := todo - {p};
    }
  }

  lemma {:induction false} InRangeOf(rows: seq<Row>, p: string, s: seq<nat>)
    requires ChildrenOf(rows, p, s)
    ensures InRange(rows, s)
  {
  }

  // ---- Ready rows ---------------------------------------------------------------------

  ghost function Ids(rows: seq<Row>, s: seq<nat>): set<string>
    requires InRange(rows, s)
  {
    set i | i in s :: rows[i].id
  }

  /** Exactly the free members, each once. */
  ghost predicate Ready(rows: seq<Row>, m: Bundle, done: set<string>, s: seq<nat>)
  {
    InRange(rows, s) && (forall i, j :: 0 <= i < j < |s| ==> s[i] != s[j])
    && forall i :: 0 <= i < |rows| ==> (i in s <==> rows[i].id in m && Free(m, done, rows[i].id))
  }

  lemma {:induction false} ReadyIds(rows: seq<Row>, m: Bundle, done: set<string>, s: seq<nat>)
    requires DistinctIds(rows) && NamedRows(rows) && m == BundleOf(rows) && Ready(rows, m, done, s)
    ensures Ids(rows, s) == FreeSet(m, done)
  {
    forall id | id in FreeSet(m, done) ensures id in Ids(rows, s) {
      var i :| 0 <= i < |rows| && rows[i].id == id;
      assert i in s;
    }
  }

  /** The first of the sorted ready rows is the least free member. */
  lemma {:induction false} FirstIsLeast(rows: seq<Row>, m: Bundle, done: set<string>, s: seq<nat>)
    requires DistinctIds(rows) && NamedRows(rows) && m == BundleOf(rows) && Ready(rows, m, done, s) && Ordered(rows, s) && s != []
    ensures FreeSet(m, done) != {} && Least(m, FreeSet(m, done)) == rows[s[0]].id
  {
    ReadyIds(rows, m, done, s);
    var free, first := FreeSet(m, done), rows[s[0]].id;
    assert s[0] in s;
    assert first in free;
    forall x | x in free && x != first ensures Before(m[first], m[x]) {
      var i :| i in s && rows[i].id == x;
      var k :| 0 <= k < |s| && s[k] == i;
      BeforeTotal(rows[s[0]], rows[i]);
    }
    LeastUnique(m, free, first, Least(m, free));
  }

  method FirstReady(rows: seq<Row>, indegree: array<nat>) returns (ready: seq<nat>)
    requires indegree.Length == |rows|
    ensures InRange(rows, ready) && (forall i, j :: 0 <= i < j < |ready| ==> ready[i] != ready[j])
    ensures forall i :: 0 <= i < |rows| ==> (i in ready <==> indegree[i] == 0)
  {
    ready := [];
    var i := 0;
    while i < |rows|
      invariant 0 <= i <= |rows| && (forall a :: 0 <= a < |ready| ==> ready[a] < i)
      invariant forall a, b :: 0 <= a < b < |ready| ==> ready[a] != ready[b]
      invariant forall k :: 0 <= k < i ==> (k in ready <==> indegree[k] == 0)
    {
      if indegree[i] == 0 { ready := ready + [i]; }
      i := i + 1;
    }
  }

  // ---- One round ------------------------------------------------------------------------

  /** Out means that nothing it supersedes is still in. */
  ghost predicate Settled(m: Bundle, done: set<string>)
  {
    done <= m.Keys && forall id :: id in done ==> m[id].parent !in m || m[id].parent in done
  }

  /** Who is free once one more member is out. */
  lemma {:induction false} FreedOne(rows: seq<Row>, m: Bundle, done: set<string>, first: nat, i: nat)
    requires DistinctIds(rows) && NamedRows(rows) && m == BundleOf(rows) && Settled(m, done)
    requires first < |rows| && i < |rows| && Free(m, done, rows[first].id)
    ensures Free(m, done + {rows[first].id}, rows[i].id)
            <==> (i != first && Free(m, done, rows[i].id)) || rows[i].parent == rows[first].id
  {
    assert m[rows[i].id] == rows[i] && m[rows[first].id] == rows[first];
    if i != first { assert rows[i].id != rows[first].id; }
  }

  lemma {:induction false} Apart(a: seq<nat>, b: seq<nat>)
    requires (forall i, j :: 0 <= i < j < |a| ==> a[i] != a[j]) && (forall i, j :: 0 <= i < j < |b| ==> b[i] != b[j])
    requires forall x :: x in a ==> x !in b
    ensures forall i, j :: 0 <= i < j < |a + b| ==> (a + b)[i] != (a + b)[j]
  {
    forall i, j | 0 <= i < j < |a + b| ensures (a + b)[i] != (a + b)[j] {
      if i < |a| && j >= |a| { assert (a + b)[i] in a && (a + b)[j] in b; }
    }
  }

  lemma {:induction false} SettledOne(m: Bundle, done: set<string>, id: string)
    requires Settled(m, done) && Free(m, done, id)
    ensures Settled(m, done + {id})
  {
  }

  lemma {:induction false} RoundMember(rows: seq<Row>, m: Bundle, done: set<string>, s: seq<nat>, freed: seq<nat>, i: nat)
    requires DistinctIds(rows) && NamedRows(rows) && m == BundleOf(rows) && Settled(m, done) && Ready(rows, m, done, s) && s != []
    requires ChildrenOf(rows, rows[s[0]].id, freed) && i < |rows|
    ensures i in s[1..] + freed <==> Free(m, done + {rows[s[0]].id}, rows[i].id)
    ensures i in s[1..] ==> i !in freed
  {
    assert s == [s[0]] + s[1..];
    assert s[0] in s && s[0] !in s[1..];
    FreedOne(rows, m, done, s[0], i);
    hide Settled, BundleOf;
    assert i in s <==> i == s[0] || i in s[1..];
    if i in s[1..] { NotBoth(rows, m, done, s[0], i); }
  }

  /** Taking one member out frees exactly the rows that supersede it. */
  lemma {:induction false} RoundFrees(rows: seq<Row>, m: Bundle, done: set<string>, s: seq<nat>, freed: seq<nat>)
    requires DistinctIds(rows) && NamedRows(rows) && m == BundleOf(rows) && Settled(m, done) && Ready(rows, m, done, s) && s != []
    requires ChildrenOf(rows, rows[s[0]].id, freed)
    ensures Ready(rows, m, done + {rows[s[0]].id}, s[1..] + freed) && Settled(m, done + {rows[s[0]].id})
  {
    assert s[0] in s && Free(m, done, rows[s[0]].id);
    SettledOne(m, done, rows[s[0]].id);
    hide Free, BundleOf, Settled;
    forall i | 0 <= i < |rows|
      ensures (i in s[1..] + freed <==> Free(m, done + {rows[s[0]].id}, rows[i].id)) && (i in s[1..] ==> i !in freed)
    {
      RoundMember(rows, m, done, s, freed, i);
    }
    forall x | x in s[1..] ensures x !in freed { assert x in s; }
    Apart(s[1..], freed);
  }

  /** A row that is already free does not wait for one that is not out. */
  lemma {:induction false} NotBoth(rows: seq<Row>, m: Bundle, done: set<string>, first: nat, i: nat)
    requires DistinctIds(rows) && NamedRows(rows) && m == BundleOf(rows)
    requires first < |rows| && i < |rows| && Free(m, done, rows[first].id) && Free(m, done, rows[i].id)
    ensures rows[i].parent != rows[first].id
  {
    assert m[rows[i].id] == rows[i];
  }

  /** Lowers the degree of every child of a row that went out. */
  method Release(rows: seq<Row>, indegree: array<nat>, ready: seq<nat>, children: seq<nat>, ghost m: Bundle, ghost done: set<string>, ghost id: string)
    returns (next: seq<nat>)
    requires indegree.Length == |rows| && id in m && id !in done && ChildrenOf(rows, id, children)
    requires forall i :: 0 <= i < |rows| ==> indegree[i] == Degree(m, done, rows[i])
    modifies indegree
    ensures next == ready + children
    ensures forall i :: 0 <= i < |rows| ==> indegree[i] == Degree(m, done + {id}, rows[i])
  {
    next := ready;
    var k := 0;
    while k < |children|
      invariant 0 <= k <= |children| && next == ready + children[..k]
      invariant forall i :: 0 <= i < |rows| ==> indegree[i] == if i in children[..k] then 0 else Degree(m, done, rows[i])
    {
      var child := children[k];
      assert child in children && child !in children[..k];
      indegree[child] := indegree[child] - 1;
      if indegree[child] == 0 { next := next + [child]; }
      assert children[..k + 1] == children[..k] + [child];
      k := k + 1;
    }
    assert children[..k] == children;
  }

  /** Sorting keeps the ready rows. */
  lemma {:induction false} SortKeepsReady(rows: seq<Row>, m: Bundle, done: set<string>, s: seq<nat>)
    requires Ready(rows, m, done, s)
    ensures Ready(rows, m, done, SortReady(rows, s)) && Ordered(rows, SortReady(rows, s))
  {
    SameElements(s, SortReady(rows, s));
    SortOrders(rows, s);
  }

  lemma {:induction false} IdsExtend(rows: seq<Row>, out: seq<nat>, i: nat)
    requires InRange(rows, out) && i < |rows|
    ensures InRange(rows, out + [i]) && IdsAt(rows, out + [i]) == IdsAt(rows, out) + [rows[i].id]
    ensures Members(IdsAt(rows, out + [i])) == Members(IdsAt(rows, out)) + {rows[i].id}
  {
  }

  lemma {:induction false} Regrouped(a: seq<string>, id: string, rest: seq<string>)
    ensures a + [id] + rest == a + ([id] + rest)
  {
  }

  /** One more member out, as the greedy order takes it. */
  lemma {:induction false} RoundIsGreedy(rows: seq<Row>, m: Bundle, done: set<string>, ready: seq<nat>, out: seq<nat>)
    requires DistinctIds(rows) && NamedRows(rows) && m == BundleOf(rows) && done <= m.Keys
    requires Ready(rows, m, done, ready) && Ordered(rows, ready) && ready != []
    requires InRange(rows, out) && IdsAt(rows, out) + Greedy(m, done) == Greedy(m, {}) && Members(IdsAt(rows, out)) == done
    ensures var id := rows[ready[0]].id;
            id in m && id !in done && InRange(rows, out + [ready[0]])
            && IdsAt(rows, out + [ready[0]]) + Greedy(m, done + {id}) == Greedy(m, {})
            && Members(IdsAt(rows, out + [ready[0]])) == done + {id}
  {
    var id := rows[ready[0]].id;
    FirstIsLeast(rows, m, done, ready);
    LeastIsFree(m, done);
    assert id in m && id !in done;
    hide Ready, Ordered, BundleOf, FreeSet, Free, Members, IdsAt;
    IdsExtend(rows, out, ready[0]);
    Regrouped(IdsAt(rows, out), id, Greedy(m, done + {id}));
  }

  // ---- The sort ---------------------------------------------------------------------------

  /** What the sort answers: the greedy order of a bundle that has one. */
  ghost predicate Answers(rows: seq<Row>, reply: Reply)
  {
    match reply
    case Sorted(indexes) =>
      DistinctIds(rows) && NamedRows(rows) && !Cyclic(BundleOf(rows))
      && InRange(rows, indexes) && |indexes| == |rows| && (forall i, j :: 0 <= i < j < |indexes| ==> indexes[i] != indexes[j])
      && IdsAt(rows, indexes) == Greedy(BundleOf(rows), {})
    case Refused(SupersessionCycle) => DistinctIds(rows) && NamedRows(rows) && Cyclic(BundleOf(rows))
    case Refused(error) =>
      exists i :: 0 <= i < |rows| && Offends(rows, i) && (forall k :: 0 <= k < i ==> !Offends(rows, k))
                  && error == if rows[i].id == "" then EmptyId else DuplicateId
  }

  /** Takes out ready rows until none is left. */
  method Drain(rows: seq<Row>, children: map<string, seq<nat>>, indegree: array<nat>, start: seq<nat>, ghost m: Bundle)
    returns (sorted: seq<nat>, ghost done: set<string>)
    requires DistinctIds(rows) && NamedRows(rows) && m == BundleOf(rows) && indegree.Length == |rows|
    requires forall p :: p in children ==> ChildrenOf(rows, p, children[p])
    requires forall i :: 0 <= i < |rows| && rows[i].parent in m ==> rows[i].parent in children
    requires forall i :: 0 <= i < |rows| ==> indegree[i] == Degree(m, {}, rows[i])
    requires InRange(rows, start) && Ready(rows, m, {}, start) && Ordered(rows, start) && Settled(m, {})
    modifies indegree
    ensures done <= m.Keys && Ready(rows, m, done, [])
    ensures InRange(rows, sorted) && Members(IdsAt(rows, sorted)) == done && IdsAt(rows, sorted) + Greedy(m, done) == Greedy(m, {})
  {
    Nothing(rows, m);
    hide Ready, Ordered, Greedy, Members, ChildrenOf, SortReady, BundleOf, FreeSet, Free, Settled, IdsAt;
    sorted, done := [], {};
    var ready := start;
    while ready != []
      invariant InRange(rows, sorted) && Members(IdsAt(rows, sorted)) == done && Settled(m, done) && done <= m.Keys
      invariant IdsAt(rows, sorted) + Greedy(m, done) == Greedy(m, {})
      invariant InRange(rows, ready) && Ready(rows, m, done, ready) && Ordered(rows, ready)
      invariant forall i :: 0 <= i < |rows| ==> indegree[i] == Degree(m, done, rows[i])
      decreases |m.Keys - done|
    {
      ghost var id := rows[ready[0]].id;
      RoundIsGreedy(rows, m, done, ready, sorted);
      Shrinks(m.Keys, done, id);
      sorted := sorted + [ready[0]];
      ready := Round(rows, children, indegree, ready, m, done);
      done := done + {id};
    }
  }

  lemma {:induction false} Nothing(rows: seq<Row>, m: Bundle)
    requires Named(m)
    ensures InRange(rows, []) && Members(IdsAt(rows, [])) == {} && IdsAt(rows, []) + Greedy(m, {}) == Greedy(m, {})
  {
    assert IdsAt(rows, []) == [];
  }

  /** One row goes out, and the rows it held back become ready. */
  method Round(rows: seq<Row>, children: map<string, seq<nat>>, indegree: array<nat>, ready: seq<nat>, ghost m: Bundle, ghost done: set<string>)
    returns (next: seq<nat>)
    requires DistinctIds(rows) && NamedRows(rows) && m == BundleOf(rows) && indegree.Length == |rows|
    requires forall p :: p in children ==> ChildrenOf(rows, p, children[p])
    requires forall i :: 0 <= i < |rows| && rows[i].parent in m ==> rows[i].parent in children
    requires forall i :: 0 <= i < |rows| ==> indegree[i] == Degree(m, done, rows[i])
    requires ready != [] && InRange(rows, ready) && Ready(rows, m, done, ready) && Settled(m, done)
    requires rows[ready[0]].id in m && rows[ready[0]].id !in done
    modifies indegree
    ensures var done' := done + {rows[ready[0]].id};
            InRange(rows, next) && Ready(rows, m, done', next) && Ordered(rows, next) && Settled(m, done')
            && forall i :: 0 <= i < |rows| ==> indegree[i] == Degree(m, done', rows[i])
  {
    var id := rows[ready[0]].id;
    var freed := if id in children then children[id] else [];
    Childless(rows, children, id, m);
    RoundFrees(rows, m, done, ready, freed);
    next := Release(rows, indegree, ready[1..], freed, m, done, id);
    ReadyInRange(rows, m, done + {id}, next);
    SortKeepsReady(rows, m, done + {id}, next);
    hide Ready, Ordered, ChildrenOf, SortReady, BundleOf, Free, Settled;
    next := SortReady(rows, next);
  }

  lemma {:induction false} ReadyInRange(rows: seq<Row>, m: Bundle, done: set<string>, s: seq<nat>)
    requires Ready(rows, m, done, s)
    ensures InRange(rows, s)
  {
  }

  method TopologicalSort(rows: seq<Row>) returns (reply: Reply)
    ensures Answers(rows, reply)
  {
    var indexed, indexById := IndexRows(rows);
    if indexed.Refused? { return indexed; }
    ghost var m := BundleOf(rows);
    SameKeys(rows, indexById);
    hide Ready, Ordered, Greedy, Members, ChildrenOf, SortReady, Cyclic, Answers, BundleOf, FreeSet, Free, Settled, IdsAt;
    var children, indegree := CollectChildren(rows, indexById);
    children := SortSiblings(rows, children);
    var ready := FirstReady(rows, indegree);
    StartsReady(rows, m, indegree[..], ready);
    SortKeepsReady(rows, m, {}, ready);
    ready := SortReady(rows, ready);
    var sorted, done := Drain(rows, children, indegree, ready, m);
    Finished(rows, m, done, sorted);
    reply := if |sorted| != |rows| then Refused(SupersessionCycle) else Sorted(sorted);
    AnswerIs(rows, sorted, reply);
  }

  lemma {:induction false} AnswerIs(rows: seq<Row>, sorted: seq<nat>, reply: Reply)
    requires DistinctIds(rows) && NamedRows(rows) && InRange(rows, sorted) && IdsAt(rows, sorted) == Greedy(BundleOf(rows), {})
    requires forall i, j :: 0 <= i < j < |sorted| ==> sorted[i] != sorted[j]
    requires |sorted| == |rows| <==> !Cyclic(BundleOf(rows))
    requires reply == if |sorted| != |rows| then Refused(SupersessionCycle) else Sorted(sorted)
    ensures Answers(rows, reply)
  {
  }

  lemma {:induction false} SameKeys(rows: seq<Row>, indexById: map<string, nat>)
    requires DistinctIds(rows) && NamedRows(rows)
    requires forall i :: 0 <= i < |rows| ==> rows[i].id in indexById
    requires forall id :: id in indexById ==> indexById[id] < |rows| && rows[indexById[id]].id == id
    ensures indexById.Keys == BundleOf(rows).Keys && "" !in indexById
  {
  }

  lemma {:induction false} StartsReady(rows: seq<Row>, m: Bundle, indegree: seq<nat>, ready: seq<nat>)
    requires DistinctIds(rows) && NamedRows(rows) && m == BundleOf(rows) && |indegree| == |rows|
    requires forall i :: 0 <= i < |rows| ==> indegree[i] == if rows[i].parent in m then 1 else 0
    requires InRange(rows, ready) && (forall i, j :: 0 <= i < j < |ready| ==> ready[i] != ready[j])
    requires forall i :: 0 <= i < |rows| ==> (i in ready <==> indegree[i] == 0)
    ensures Ready(rows, m, {}, ready) && Settled(m, {})
    ensures forall i :: 0 <= i < |rows| ==> indegree[i] == Degree(m, {}, rows[i])
  {
  }

  lemma {:induction false} Childless(rows: seq<Row>, children: map<string, seq<nat>>, id: string, m: Bundle)
    requires forall p :: p in children ==> ChildrenOf(rows, p, children[p])
    requires forall i :: 0 <= i < |rows| && rows[i].parent in m ==> rows[i].parent in children
    requires id in m
    ensures ChildrenOf(rows, id, if id in children then children[id] else [])
  {
  }

  /** When nothing is ready any more, everything is out or there is a cycle. */
  lemma {:induction false} Finished(rows: seq<Row>, m: Bundle, done: set<string>, sorted: seq<nat>)
    requires DistinctIds(rows) && NamedRows(rows) && m == BundleOf(rows) && done <= m.Keys && Ready(rows, m, done, [])
    requires InRange(rows, sorted) && Members(IdsAt(rows, sorted)) == done && IdsAt(rows, sorted) + Greedy(m, done) == Greedy(m, {})
    ensures IdsAt(rows, sorted) == Greedy(m, {}) && forall i, j :: 0 <= i < j < |sorted| ==> sorted[i] != sorted[j]
    ensures |sorted| == |rows| <==> !Cyclic(m)
  {
    ReadyIds(rows, m, done, []);
    assert FreeSet(m, done) == {};
    assert IdsAt(rows, sorted) + [] == IdsAt(rows, sorted);
    GreedyIsSound(m, {});
    var ids := IdsAt(rows, sorted);
    forall i, j | 0 <= i < j < |sorted| ensures sorted[i] != sorted[j] { assert ids[i] != ids[j]; }
    MembersSize(ids);
    CompleteUnlessCyclic(m);
    BundleSize(rows);
    SameSize(done, m.Keys);
  }

  lemma {:induction false} SameSize(a: set<string>, b: set<string>)
    requires a <= b
    ensures a == b <==> |a| == |b|
  {
    assert b == a + (b - a);
  }

  lemma {:induction false} BundleSize(rows: seq<Row>)
    requires DistinctIds(rows) && NamedRows(rows)
    ensures |BundleOf(rows).Keys| == |rows|
  {
    var ids := seq(|rows|, i requires 0 <= i < |rows| => rows[i].id);
    MembersSize(ids);
    assert BundleOf(rows).Keys == Members(ids) by {
      forall id | id in BundleOf(rows) ensures id in ids {
        var i :| 0 <= i < |rows| && rows[i].id == id;
        assert ids[i] == id;
      }
    }
  }

  // ---- What callers rely on ---------------------------------------------------------------

  lemma {:induction false} SortedIsComplete(rows: seq<Row>, indexes: seq<nat>)
    requires Answers(rows, Sorted(indexes))
    ensures forall i :: 0 <= i < |rows| ==> i in indexes
  {
    CompleteUnlessCyclic(BundleOf(rows));
    var ids := IdsAt(rows, indexes);
    hide Greedy, Cyclic;
    forall p | 0 <= p < |rows| ensures p in indexes {
      assert rows[p].id in Members(ids);
      var k :| 0 <= k < |ids| && ids[k] == rows[p].id;
      SameRow(rows, indexes[k], p);
    }
  }

  /** Every row once, and each after the row it supersedes, if that is in the bundle. */
  lemma {:induction false} SortedIsTopological(rows: seq<Row>, indexes: seq<nat>)
    requires Answers(rows, Sorted(indexes))
    ensures (forall i :: 0 <= i < |rows| ==> i in indexes) && forall i, j :: 0 <= i < j < |indexes| ==> indexes[i] != indexes[j]
    ensures forall j, p | 0 <= j < |indexes| && 0 <= p < |rows| && rows[p].id == rows[indexes[j]].parent ::
              exists i :: 0 <= i < j && indexes[i] == p
  {
    SortedIsComplete(rows, indexes);
    GreedyIsSound(BundleOf(rows), {});
    hide Greedy, Cyclic, Sound, BundleOf;
    forall j, p | 0 <= j < |indexes| && 0 <= p < |rows| && rows[p].id == rows[indexes[j]].parent
      ensures exists i :: 0 <= i < j && indexes[i] == p
    {
      var i := ParentFirst(rows, indexes, j, p);
    }
  }

  lemma {:induction false} ParentFirst(rows: seq<Row>, indexes: seq<nat>, j: nat, p: nat) returns (i: nat)
    requires DistinctIds(rows) && NamedRows(rows) && InRange(rows, indexes) && Sound(BundleOf(rows), {}, IdsAt(rows, indexes))
    requires j < |indexes| && p < |rows| && rows[p].id == rows[indexes[j]].parent
    ensures i < j && indexes[i] == p
  {
    var m, ids := BundleOf(rows), IdsAt(rows, indexes);
    assert m[ids[j]] == rows[indexes[j]];
    i :| 0 <= i < j && ids[i] == m[ids[j]].parent;
    SameRow(rows, indexes[i], p);
  }

  lemma {:induction false} SameRow(rows: seq<Row>, a: nat, b: nat)
    requires DistinctIds(rows) && a < |rows| && b < |rows| && rows[a].id == rows[b].id
    ensures a == b
  {
  }

  /** Whatever the order of the input, the same rows come out in the same order. */
  lemma {:induction false} SortIsCanonical(rows: seq<Row>, rows': seq<Row>, reply: Reply, reply': Reply)
    requires multiset(rows) == multiset(rows') && Answers(rows, reply) && Answers(rows', reply')
    ensures reply.Sorted? <==> reply'.Sorted?
    ensures reply.Sorted? ==> IdsAt(rows, reply.indexes) == IdsAt(rows', reply'.indexes)
    ensures reply == Refused(SupersessionCycle) <==> reply' == Refused(SupersessionCycle)
  {
    OffendersRefuse(rows, reply);
    OffendersRefuse(rows', reply');
    hide Greedy, Cyclic, IdsAt, DistinctIds, NamedRows, Offends;
    PermutedOffenders(rows, rows');
    PermutedOffenders(rows', rows);
    if DistinctIds(rows) && NamedRows(rows) { SameBundle(rows, rows'); }
  }

  lemma {:induction false} OffendersRefuse(rows: seq<Row>, reply: Reply)
    requires Answers(rows, reply)
    ensures DistinctIds(rows) && NamedRows(rows) <==> reply.Sorted? || reply == Refused(SupersessionCycle)
  {
  }

  lemma {:induction false} PermutedOffenders(rows: seq<Row>, rows': seq<Row>)
    requires multiset(rows) == multiset(rows')
    ensures DistinctIds(rows) && NamedRows(rows) ==> DistinctIds(rows') && NamedRows(rows')
  {
    if DistinctIds(rows) && NamedRows(rows) { PermutedNames(rows, rows'); }
  }

  lemma {:induction false} PermutedNames(rows: seq<Row>, rows': seq<Row>)
    requires multiset(rows) == multiset(rows') && DistinctIds(rows) && NamedRows(rows)
    ensures DistinctIds(rows') && NamedRows(rows')
  {
    forall i | 0 <= i < |rows'| ensures rows'[i].id != "" {
      assert rows'[i] in multiset(rows');
      assert rows'[i] in rows;
    }
    forall i, j | 0 <= i < j < |rows'| ensures rows'[i].id != rows'[j].id {
      if rows'[i].id == rows'[j].id {
        assert rows'[i] in multiset(rows') && rows'[j] in multiset(rows');
        var a :| 0 <= a < |rows| && rows[a] == rows'[i];
        var b :| 0 <= b < |rows| && rows[b] == rows'[j];
        SameRow(rows, a, b);
        TwiceIn(rows', i, j);
        OnceIn(rows, a);
      }
    }
  }

  lemma {:induction false} TwiceIn(s: seq<Row>, i: nat, j: nat)
    requires i < j < |s| && s[i] == s[j]
    ensures multiset(s)[s[i]] >= 2
  {
    assert s == s[..j] + [s[j]] + s[j + 1..];
    assert s[i] in s[..j];
  }

  lemma {:induction false} OnceIn(s: seq<Row>, i: nat)
    requires DistinctIds(s) && i < |s|
    ensures multiset(s)[s[i]] == 1
  {
    assert s == s[..i] + [s[i]] + s[i + 1..];
    assert s[i] !in s[..i] && s[i] !in s[i + 1..];
  }

  lemma {:induction false} SameBundle(rows: seq<Row>, rows': seq<Row>)
    requires multiset(rows) == multiset(rows') && DistinctIds(rows) && NamedRows(rows) && DistinctIds(rows') && NamedRows(rows')
    ensures BundleOf(rows) == BundleOf(rows')
  {
    forall i | 0 <= i < |rows| ensures rows[i].id in BundleOf(rows') && BundleOf(rows')[rows[i].id] == rows[i] {
      assert rows[i] in multiset(rows);
      var j :| 0 <= j < |rows'| && rows'[j] == rows[i];
    }
    forall i | 0 <= i < |rows'| ensures rows'[i].id in BundleOf(rows) && BundleOf(rows)[rows'[i].id] == rows'[i] {
      assert rows'[i] in multiset(rows');
      var j :| 0 <= j < |rows| && rows[j] == rows'[i];
    }
  }

  /** The rows of a bundle in their order. */
  method SortBundleRows(rows: seq<Row>) returns (reply: Reply, sorted: seq<Row>)
    ensures Answers(rows, reply)
    ensures reply.Sorted? ==> |sorted| == |rows| && forall k :: 0 <= k < |rows| ==> sorted[k] == rows[reply.indexes[k]]
  {
    sorted := [];
    reply := TopologicalSort(rows);
    if reply.Refused? { return; }
    var k := 0;
    while k < |reply.indexes|
      invariant 0 <= k <= |reply.indexes| && |sorted| == k
      invariant forall j :: 0 <= j < k ==> sorted[j] == rows[reply.indexes[j]]
    {
      sorted := sorted + [rows[reply.indexes[k]]];
      k := k + 1;
    }
  }
}
