/**
 Breadth-first order: levels are reported in order, within a level nodes stand in the order in which
 their parents and those parents' children first name them, and every edge is counted once.
 */
module TraversalOrder {
  import opened Seqs
  import opened Traversal

  /** A limit that is not positive stands for its default; any other is in force as given. */
  lemma LimitsInForce(l: Limits)
    ensures var r := WithDefaults(l);
            && r.maxDepth == (if l.maxDepth > 0 then l.maxDepth else 32)
            && r.maxNodes == (if l.maxNodes > 0 then l.maxNodes else 100000)
            && r.maxEdges == (if l.maxEdges > 0 then l.maxEdges else 1000000)
            && r.maxFrontier == (if l.maxFrontier > 0 then l.maxFrontier else 65536)
  {
  }

  // ---------------------------------------------------------------- first occurrences

  /** An element that comes first in the list has an occurrence before every occurrence of a later one. */
  lemma {:induction false} FirstNewOrder<K(!new)>(s: seq<K>, seen: set<K>, i: nat, j: nat, b: nat) returns (a: nat)
    requires i < j < |FirstNew(s, seen)| && b < |s| && s[b] == FirstNew(s, seen)[j]
    ensures a < b && s[a] == FirstNew(s, seen)[i]
  {
    var n := |s| - 1;
    var r := FirstNew(s[..n], seen);
    FirstNewIs(s[..n], seen);
    if j < |r| {
      assert r[j] in s[..n];
      var c :| 0 <= c < n && s[..n][c] == r[j];
      if b < n {
        a := FirstNewOrder(s[..n], seen, i, j, b);
      } else {
        a := FirstNewOrder(s[..n], seen, i, j, c);
      }
    } else {
      assert r[i] in s[..n];
      a :| 0 <= a < n && s[..n][a] == r[i];
    }
  }

  // ---------------------------------------------------------------- where a child stands

  /** The place of the first child of `ks[p]` in the list of all children. */
  function Offset<K(==), V>(t: Task<K, V>, d: nat, keys: seq<K>, ks: seq<K>, p: nat): (n: nat)
    requires t.c.children.Some? && p <= |ks|
  {
    |Kids(t, d, keys, ks[..p])|
  }

  function KidsOf<K(==), V>(t: Task<K, V>, d: nat, keys: seq<K>, a: K): (r: seq<K>)
    requires t.c.children.Some?
  {
    Expand(t.c, a, Answer(t, d, keys, a))
  }

  lemma OffsetNext<K, V>(t: Task<K, V>, d: nat, keys: seq<K>, ks: seq<K>, p: nat)
    requires t.c.children.Some? && p < |ks|
    ensures Kids(t, d, keys, ks[..p + 1]) == Kids(t, d, keys, ks[..p]) + KidsOf(t, d, keys, ks[p])
    ensures Offset(t, d, keys, ks, p + 1) == Offset(t, d, keys, ks, p) + |KidsOf(t, d, keys, ks[p])|
  {
    hide Expand, Answer;
    assert ks[..p + 1][..p] == ks[..p];
  }

  lemma {:induction false} OffsetMono<K, V>(t: Task<K, V>, d: nat, keys: seq<K>, ks: seq<K>, p: nat, q: nat)
    requires t.c.children.Some? && p <= q <= |ks|
    ensures Offset(t, d, keys, ks, p) <= Offset(t, d, keys, ks, q)
  {
    hide Kids, KidsOf;
    if p < q {
      OffsetMono(t, d, keys, ks, p, q - 1);
      OffsetNext(t, d, keys, ks, q - 1);
    }
  }

  lemma KidAt<K, V>(t: Task<K, V>, d: nat, keys: seq<K>, ks: seq<K>, p: nat, x: nat)
    requires t.c.children.Some? && p < |ks| && x < |KidsOf(t, d, keys, ks[p])|
    ensures Offset(t, d, keys, ks, p) + x < |Kids(t, d, keys, ks)|
    ensures Kids(t, d, keys, ks)[Offset(t, d, keys, ks, p) + x] == KidsOf(t, d, keys, ks[p])[x]
  {
    hide Kids, KidsOf;
    OffsetNext(t, d, keys, ks, p);
    KidsPrefix(t, d, keys, ks, p + 1);
  }

  /** Every child in the list is a child of some node. */
  lemma {:induction false} KidFrom<K, V>(t: Task<K, V>, d: nat, keys: seq<K>, ks: seq<K>, m: nat) returns (p: nat,
                                         x: nat)
    requires t.c.children.Some? && m < |Kids(t, d, keys, ks)|
    ensures p < |ks| && x < |KidsOf(t, d, keys, ks[p])| && m == Offset(t, d, keys, ks, p) + x
    ensures Kids(t, d, keys, ks)[m] == KidsOf(t, d, keys, ks[p])[x]
  {
    var n := |ks| - 1;
    hide Expand, Answer;
    if m < |Kids(t, d, keys, ks[..n])| {
      p, x := KidFrom(t, d, keys, ks[..n], m);
      assert ks[..n][..p] == ks[..p];
    } else {
      p, x := n, m - |Kids(t, d, keys, ks[..n])|;
    }
  }

  lemma Before<K, V>(t: Task<K, V>, d: nat, keys: seq<K>, ks: seq<K>, p: nat, x: nat, q: nat, y: nat)
    requires t.c.children.Some? && p < |ks| && q < |ks|
    requires x < |KidsOf(t, d, keys, ks[p])| && y < |KidsOf(t, d, keys, ks[q])|
    requires Offset(t, d, keys, ks, p) + x < Offset(t, d, keys, ks, q) + y
    ensures p < q || (p == q && x < y)
  {
    hide Kids, KidsOf;
    if q < p {
      OffsetNext(t, d, keys, ks, q);
      OffsetMono(t, d, keys, ks, q + 1, p);
    }
  }

  // ---------------------------------------------------------------- the order of a level

  /** The first level follows the roots. */
  lemma RootOrder<K(!new), V>(t: Task<K, V>, calls: seq<seq<K>>, i: nat, j: nat, b: nat) returns (a: nat)
    requires t.c.children.Some? && Levels(t, calls) && calls != [] && i < j < |calls[0]| && b < |t.roots|
    requires t.roots[b] == calls[0][j]
    ensures a < b && t.roots[a] == calls[0][i]
  {
    hide FirstNew;
    a := FirstNewOrder(t.roots, {}, i, j, b);
  }

  /** Node number `p` of level `d` has `b` as child number `x`. */
  ghost predicate Named<K(!new), V>(t: Task<K, V>, calls: seq<seq<K>>, d: nat, p: int, x: int, b: K)
    requires t.c.children.Some? && d < |calls|
  {
    0 <= p < |calls[d]| && Child(t, d, calls[d], calls[d][p], x, b)
  }

  /** An earlier node of level `d` than number `q` has `b` as a child, or that node has before child `y`. */
  ghost predicate NamedEarlier<K(!new), V>(t: Task<K, V>, calls: seq<seq<K>>, d: nat, q: int, y: int, b: K)
    requires t.c.children.Some? && d < |calls|
  {
    exists p, x :: Named(t, calls, d, p, x, b) && (p < q || (p == q && x < y))
  }

  /**
   Any later level is in the order of naming: wherever a node of it is named by the level above, every
   node that stands before it is named earlier.
   */
  lemma LevelOrder<K(!new), V>(t: Task<K, V>, calls: seq<seq<K>>, d: nat, i: nat, j: nat, q: nat, y: nat)
    requires t.c.children.Some? && Levels(t, calls) && d + 1 < |calls| && i < j < |calls[d + 1]|
    requires Named(t, calls, d, q, y, calls[d + 1][j])
    ensures NamedEarlier(t, calls, d, q, y, calls[d + 1][i])
  {
    hide FirstNew, Kids, Child, Offset, Expand, Answer;
    var ks := calls[d];
    LevelFrom(t, calls, d);
    ExpandIs(t, d, ks, ks[q], y, calls[d + 1][j]);
    KidAt(t, d, ks, ks, q, y);
    var a := FirstNewOrder(Kids(t, d, ks, ks), Seen(calls[..d + 1]), i, j, Offset(t, d, ks, ks, q) + y);
    var p, x := KidFrom(t, d, ks, ks, a);
    Before(t, d, ks, ks, p, x, q, y);
    ExpandIs(t, d, ks, ks[p], x, calls[d + 1][i]);
    assert Named(t, calls, d, p, x, calls[d + 1][i]);
  }

  lemma LevelFrom<K(!new), V>(t: Task<K, V>, calls: seq<seq<K>>, d: nat)
    requires t.c.children.Some? && Levels(t, calls) && d + 1 < |calls|
    ensures calls[d + 1] == FirstNew(Kids(t, d, calls[d], calls[d]), Seen(calls[..d + 1]))
  {
    hide FirstNew, Kids, Seen;
    assert calls[..d + 1][d] == calls[d];
  }

  ghost predicate Ahead<K>(s: seq<K>, a: K, b: K) {
    exists p, q :: 0 <= p < q < |s| && s[p] == a && s[q] == b
  }

  /** Nodes are reported level by level, and within a level in its order. */
  lemma {:induction false} ReportOrder<K(!new), V>(t: Task<K, V>, calls: seq<seq<K>>, i: nat, j: nat)
    requires i < j < |OrderOf(t, calls)|
    ensures var a, b := OrderOf(t, calls)[i], OrderOf(t, calls)[j];
            && b.depth < |calls|
            && (a.depth < b.depth || (a.depth == b.depth && Ahead(calls[b.depth], a.key, b.key)))
  {
    hide Answer;
    var n := |calls| - 1;
    var was := OrderOf(t, calls[..n]);
    if j < |was| {
      ReportOrder(t, calls[..n], i, j);
      assert calls[..n][was[j].depth] == calls[was[j].depth];
    } else {
      AnswerLoaded(t, n, calls[n], calls[n][j - |was|]);
      if i < |was| {
        OrderLevel(t, calls[..n], i);
      } else {
        AnswerLoaded(t, n, calls[n], calls[n][i - |was|]);
      }
    }
  }

  // ---------------------------------------------------------------- markers and edges

  /** The known elements, in order and as often as they occur. */
  lemma {:induction false} AgainIs<K>(s: seq<K>, seen: set<K>, k: K)
    ensures Subseq(Again(s, seen), s)
    ensures multiset(Again(s, seen))[k] == if k in seen then multiset(s)[k] else 0
  {
    if s != [] {
      var n := |s| - 1;
      AgainIs(s[..n], seen, k);
      assert s == s[..n] + [s[n]];
      var was := Again(s[..n], seen);
      SubseqSkip(was, s[..n], s[n]);
      SubseqTake(was, s[..n], s[n]);
      assert was + [] == was;
    }
  }

  /** The markers are the children met again: known before their parent's level was left. */
  lemma {:induction false} MarkersAre<K(!new), V>(t: Task<K, V>, calls: seq<seq<K>>, k: K)
    requires t.c.children.Some?
    ensures k in Markers(t, calls) <==>
            exists d, p, x :: 0 <= d < |calls| && Named(t, calls, d, p, x, k) && k in Seen(calls[..d + 1])
  {
    hide Again, Kids, Seen, Child;
    if calls != [] {
      var n := |calls| - 1;
      MarkersAre(t, calls[..n], k);
      AgainIs(Kids(t, n, calls[n], calls[n]), Seen(calls), k);
      KidsNamed(t, calls, n, k);
      assert calls[..n + 1] == calls;
      MarkersSplit(t, calls, k);
    }
  }

  lemma KidsNamed<K(!new), V>(t: Task<K, V>, calls: seq<seq<K>>, d: nat, k: K)
    requires t.c.children.Some? && d < |calls|
    ensures k in Kids(t, d, calls[d], calls[d]) <==> exists p, x :: Named(t, calls, d, p, x, k)
  {
    hide Kids, Child, Expand, Answer, Offset;
    var ks := calls[d];
    if k in Kids(t, d, ks, ks) {
      var m :| 0 <= m < |Kids(t, d, ks, ks)| && Kids(t, d, ks, ks)[m] == k;
      var p, x := KidFrom(t, d, ks, ks, m);
      ExpandIs(t, d, ks, ks[p], x, k);
      assert Named(t, calls, d, p, x, k);
    }
    if p, x :| Named(t, calls, d, p, x, k) {
      ExpandIs(t, d, ks, ks[p], x, k);
      KidAt(t, d, ks, ks, p, x);
    }
  }

  lemma MarkersSplit<K(!new), V>(t: Task<K, V>, calls: seq<seq<K>>, k: K)
    requires t.c.children.Some? && calls != []
    ensures var n := |calls| - 1;
            (exists d, p, x :: 0 <= d < |calls| && Named(t, calls, d, p, x, k) && k in Seen(calls[..d + 1])) <==>
            || (exists d, p, x :: 0 <= d < n && Named(t, calls[..n], d, p, x, k) && k in Seen(calls[..n][..d + 1]))
            || ((exists p, x :: Named(t, calls, n, p, x, k)) && k in Seen(calls[..n + 1]))
  {
    hide Seen, Child;
    var n := |calls| - 1;
    forall d, p, x | 0 <= d < n
      ensures Named(t, calls[..n], d, p, x, k) <==> Named(t, calls, d, p, x, k)
      ensures calls[..n][..d + 1] == calls[..d + 1]
    {
      assert calls[..n][d] == calls[d];
    }
    if d, p, x :| 0 <= d < |calls| && Named(t, calls, d, p, x, k) && k in Seen(calls[..d + 1]) {
      assert d < n ==> Named(t, calls[..n], d, p, x, k);
    }
  }

  /** Child number `x` of node number `p` of level `d`. */
  datatype Edge = Edge(d: nat, p: nat, x: nat)

  ghost predicate IsEdge<K(!new), V>(t: Task<K, V>, calls: seq<seq<K>>, e: Edge)
    requires t.c.children.Some?
  {
    e.d < |calls| && exists b :: Named(t, calls, e.d, e.p, e.x, b)
  }

  function RowEdges<K(==), V>(t: Task<K, V>, d: nat, keys: seq<K>, p: nat): (es: seq<Edge>)
    requires t.c.children.Some? && p < |keys|
  {
    seq(|KidsOf(t, d, keys, keys[p])|, (x: nat) => Edge(d, p, x))
  }

  /** The edges of the first `p` nodes of level `d`. */
  function LevelEdges<K(==), V>(t: Task<K, V>, d: nat, keys: seq<K>, p: nat): (es: seq<Edge>)
    requires t.c.children.Some? && p <= |keys|
  {
    if p == 0 then [] else LevelEdges(t, d, keys, p - 1) + RowEdges(t, d, keys, p - 1)
  }

  function AllEdges<K(==), V>(t: Task<K, V>, calls: seq<seq<K>>): (es: seq<Edge>)
    requires t.c.children.Some?
  {
    if calls == [] then []
    else
      var d := |calls| - 1;
      AllEdges(t, calls[..d]) + LevelEdges(t, d, calls[d], |calls[d]|)
  }

  lemma {:induction false} LevelEdgesAre<K, V>(t: Task<K, V>, d: nat, keys: seq<K>, p: nat)
    requires t.c.children.Some? && p <= |keys|
    ensures |LevelEdges(t, d, keys, p)| == Offset(t, d, keys, keys, p) && Distinct(LevelEdges(t, d, keys, p))
    ensures forall e :: e in LevelEdges(t, d, keys, p) <==>
                          e.d == d && e.p < p && e.x < |KidsOf(t, d, keys, keys[e.p])|
  {
    hide KidsOf, Kids;
    if p == 0 {
      assert keys[..0] == [];
      assert Offset(t, d, keys, keys, 0) == 0 by { NoOffset(t, d, keys); }
    } else {
      LevelEdgesAre(t, d, keys, p - 1);
      OffsetNext(t, d, keys, keys, p - 1);
      var es := LevelEdges(t, d, keys, p);
      forall e: Edge | e.d == d && e.p < p && e.x < |KidsOf(t, d, keys, keys[e.p])| ensures e in es {
        if e.p == p - 1 {
          assert RowEdges(t, d, keys, p - 1)[e.x] == e;
        }
      }
    }
  }

  lemma NoOffset<K, V>(t: Task<K, V>, d: nat, keys: seq<K>)
    requires t.c.children.Some?
    ensures Offset(t, d, keys, keys, 0) == 0
  {
    assert keys[..0] == [];
  }

  /** The edges are counted exactly: the listing holds every edge once, and the count is its length. */
  lemma {:induction false} EdgesCounted<K(!new), V>(t: Task<K, V>, calls: seq<seq<K>>)
    requires t.c.children.Some?
    ensures |AllEdges(t, calls)| == EdgeCount(t, calls) && Distinct(AllEdges(t, calls))
    ensures forall e :: e in AllEdges(t, calls) <==> IsEdge(t, calls, e)
  {
    hide Kids, Offset, Named;
    if calls != [] {
      var n := |calls| - 1;
      EdgesCounted(t, calls[..n]);
      LevelEdgesAre(t, n, calls[n], |calls[n]|);
      OffsetAll(t, n, calls[n]);
      DistinctJoin(AllEdges(t, calls[..n]), LevelEdges(t, n, calls[n], |calls[n]|), n);
      forall e ensures e in AllEdges(t, calls) <==> IsEdge(t, calls, e) {
        EdgeOfLast(t, calls, e);
      }
    }
  }

  lemma DistinctJoin(a: seq<Edge>, b: seq<Edge>, n: nat)
    requires Distinct(a) && Distinct(b)
    requires forall e :: e in a ==> e.d < n
    requires forall e :: e in b ==> e.d == n
    ensures Distinct(a + b)
  {
    assert forall i :: 0 <= i < |a| ==> a[i] in a;
    assert forall i :: 0 <= i < |b| ==> b[i] in b;
  }

  lemma OffsetAll<K, V>(t: Task<K, V>, d: nat, keys: seq<K>)
    requires t.c.children.Some?
    ensures Offset(t, d, keys, keys, |keys|) == |Kids(t, d, keys, keys)|
  {
    assert keys[..|keys|] == keys;
  }

  lemma EdgeOfLast<K(!new), V>(t: Task<K, V>, calls: seq<seq<K>>, e: Edge)
    requires t.c.children.Some? && calls != []
    ensures var n := |calls| - 1;
            IsEdge(t, calls, e) <==>
            IsEdge(t, calls[..n], e) || (e.d == n && e.p < |calls[n]| && e.x < |KidsOf(t, n, calls[n], calls[n][e.p])|)
  {
    hide Child, Expand, Answer;
    var n := |calls| - 1;
    if e.d < n {
      assert calls[..n][e.d] == calls[e.d];
      assert forall b :: Named(t, calls[..n], e.d, e.p, e.x, b) <==> Named(t, calls, e.d, e.p, e.x, b);
    } else if e.d == n && e.p < |calls[n]| {
      var kids := KidsOf(t, n, calls[n], calls[n][e.p]);
      if e.x < |kids| {
        ExpandIs(t, n, calls[n], calls[n][e.p], e.x, kids[e.x]);
        assert Named(t, calls, n, e.p, e.x, kids[e.x]);
      }
      if b :| Named(t, calls, n, e.p, e.x, b) {
        ExpandIs(t, n, calls[n], calls[n][e.p], e.x, b);
      }
    }
  }
}
