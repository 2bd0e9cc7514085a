/** Walks, cycles, longest chains and path costs of a dependency graph. */
module WaveTheory {
  import opened Seqs

  datatype Edge = Edge(from: string, to: string, kind: string)

  ghost predicate IsEdge(es: seq<Edge>, a: string, b: string) {
    exists i :: 0 <= i < |es| && es[i].from == a && es[i].to == b
  }

  /** A directed walk: every node is joined to the next by an edge. */
  ghost predicate Walk(es: seq<Edge>, p: seq<string>) {
    p != [] && forall i :: 0 <= i < |p| - 1 ==> IsEdge(es, p[i], p[i + 1])
  }

  function Last(p: seq<string>): (r: string)
    requires p != []
  {
    p[|p| - 1]
  }

  ghost predicate Acyclic(es: seq<Edge>) {
    forall p :: Walk(es, p) && |p| >= 2 ==> p[0] != Last(p)
  }

  /** `n` edges is the length of the longest chain of dependencies that ends in `x`. */
  ghost predicate LongestChain(es: seq<Edge>, x: string, n: nat) {
    && (exists p :: Walk(es, p) && Last(p) == x && |p| == n + 1)
    && (forall p :: Walk(es, p) && Last(p) == x ==> |p| <= n + 1)
  }

  lemma WalkOn(es: seq<Edge>, p: seq<string>, x: string)
    requires Walk(es, p) && IsEdge(es, Last(p), x)
    ensures Walk(es, p + [x])
  {
  }

  lemma WalkBack(es: seq<Edge>, p: seq<string>, x: string)
    requires Walk(es, p) && IsEdge(es, x, p[0])
    ensures Walk(es, [x] + p)
  {
    var q := [x] + p;
    forall i | 0 <= i < |q| - 1 ensures IsEdge(es, q[i], q[i + 1]) {
      if i > 0 {
        assert q[i] == p[i - 1] && q[i + 1] == p[i - 1 + 1];
      }
    }
  }

  lemma SubWalk(es: seq<Edge>, p: seq<string>, i: nat, j: nat)
    requires Walk(es, p) && i < j <= |p|
    ensures Walk(es, p[i..j])
  {
    forall k | 0 <= k < j - i - 1 ensures IsEdge(es, p[i..j][k], p[i..j][k + 1]) {
      assert p[i..j][k] == p[i + k] && p[i..j][k + 1] == p[i + k + 1];
    }
  }

  // ---------------------------------------------------------------- ranks

  /** Every edge of the graph goes up in rank. */
  ghost predicate Ranks(es: seq<Edge>, rank: map<string, nat>) {
    forall i :: 0 <= i < |es| ==> es[i].from in rank && es[i].to in rank && rank[es[i].from] + 1 <= rank[es[i].to]
  }

  lemma {:induction false} RankBound(es: seq<Edge>, rank: map<string, nat>, p: seq<string>)
    requires Ranks(es, rank) && Walk(es, p) && p[0] in rank
    ensures Last(p) in rank && rank[Last(p)] >= rank[p[0]] + |p| - 1
  {
    if |p| > 1 {
      var q := p[..|p| - 1];
      SubWalk(es, p, 0, |p| - 1);
      RankBound(es, rank, q);
      assert IsEdge(es, p[|p| - 2], p[|p| - 2 + 1]);
    }
  }

  lemma RanksAcyclic(es: seq<Edge>, rank: map<string, nat>)
    requires Ranks(es, rank)
    ensures Acyclic(es)
  {
    forall p | Walk(es, p) && |p| >= 2 ensures p[0] != Last(p) {
      assert IsEdge(es, p[0], p[0 + 1]);
      RankBound(es, rank, p);
    }
  }

  /** A rank that some chain attains at every node is the longest-chain level. */
  lemma RanksLongest(es: seq<Edge>, rank: map<string, nat>, x: string, p: seq<string>)
    requires Ranks(es, rank) && Walk(es, p) && x in rank && Last(p) == x && |p| == rank[x] + 1
    ensures LongestChain(es, x, rank[x])
  {
    forall q | Walk(es, q) && Last(q) == x ensures |q| <= rank[x] + 1 {
      if |q| >= 2 {
        assert IsEdge(es, q[0], q[0 + 1]);
        RankBound(es, rank, q);
      }
    }
  }

  /** Above level zero every node has a predecessor exactly one level below. */
  lemma LevelBelow(es: seq<Edge>, rank: map<string, nat>, x: string)
    requires Ranks(es, rank) && x in rank && rank[x] > 0
    requires forall y :: y in rank ==> LongestChain(es, y, rank[y])
    ensures exists y :: y in rank && IsEdge(es, y, x) && rank[y] == rank[x] - 1
  {
    assert LongestChain(es, x, rank[x]);
    var p :| Walk(es, p) && Last(p) == x && |p| == rank[x] + 1;
    var n := |p| - 1;
    var y := p[n - 1];
    assert IsEdge(es, p[n - 1], p[n - 1 + 1]);
    assert y in rank && LongestChain(es, y, rank[y]);
    SubWalk(es, p, 0, n);
    assert Last(p[0..n]) == y;
  }

  // ---------------------------------------------------------------- cycles

  /** Every node of `u` has a predecessor in `u`. */
  ghost predicate Stuck(es: seq<Edge>, u: set<string>) {
    forall x :: x in u ==> exists y :: y in u && IsEdge(es, y, x)
  }

  lemma Start(es: seq<Edge>, u: set<string>) returns (p: seq<string>)
    requires u != {}
    ensures |p| == 1 && Walk(es, p) && p[0] in u
  {
    var x :| x in u;
    p := [x];
  }

  lemma Before(es: seq<Edge>, u: set<string>, x: string) returns (y: string)
    requires Stuck(es, u) && x in u
    ensures y in u && IsEdge(es, y, x)
  {
    hide IsEdge;
    y :| y in u && IsEdge(es, y, x);
  }

  lemma {:induction false} BackWalk(es: seq<Edge>, u: set<string>, n: nat) returns (p: seq<string>)
    requires u != {} && Stuck(es, u)
    ensures |p| == n + 1 && Walk(es, p) && forall x :: x in p ==> x in u
  {
    hide Stuck, Walk, IsEdge;
    if n == 0 {
      p := Start(es, u);
    } else {
      var q := BackWalk(es, u, n - 1);
      var y := Before(es, u, q[0]);
      WalkBack(es, q, y);
      p := [y] + q;
    }
  }

  lemma StuckCycle(es: seq<Edge>, u: set<string>)
    requires u != {} && Stuck(es, u)
    ensures !Acyclic(es)
  {
    hide Stuck, Walk;
    var p := BackWalk(es, u, |u|);
    var i, j := Pigeonhole(p, u);
    SubWalk(es, p, i, j + 1);
    var c := p[i..j + 1];
    assert Walk(es, c) && |c| >= 2 && c[0] == Last(c);
  }

  // ---------------------------------------------------------------- degrees

  /** The successors of a node in edge order, parallel edges repeated. */
  ghost function Succ(es: seq<Edge>, x: string): (r: seq<string>) {
    if es == [] then []
    else
      var e := es[|es| - 1];
      Succ(es[..|es| - 1], x) + if e.from == x then [e.to] else []
  }

  /** How many edges into `x` come from outside `done`. */
  ghost function Waiting(es: seq<Edge>, done: set<string>, x: string): (n: nat) {
    if es == [] then 0
    else
      var e := es[|es| - 1];
      Waiting(es[..|es| - 1], done, x) + if e.to == x && e.from !in done then 1 else 0
  }

  /** Finishing a node releases one waiting edge per occurrence among its successors. */
  lemma {:induction false} Release(es: seq<Edge>, done: set<string>, id: string, x: string)
    requires id !in done
    ensures Waiting(es, done, x) == Waiting(es, done + {id}, x) + multiset(Succ(es, id))[x]
  {
    if es != [] {
      Release(es[..|es| - 1], done, id, x);
    }
  }

  lemma {:induction false} WaitingZero(es: seq<Edge>, done: set<string>, x: string)
    ensures Waiting(es, done, x) == 0 <==> forall i :: 0 <= i < |es| && es[i].to == x ==> es[i].from in done
  {
    if es != [] {
      var n := |es| - 1;
      WaitingZero(es[..n], done, x);
      assert forall i :: 0 <= i < n ==> es[..n][i] == es[i];
      assert es[n].to == x && es[n].from !in done ==> Waiting(es, done, x) > 0;
    }
  }

  lemma {:induction false} SuccEdge(es: seq<Edge>, x: string, y: string)
    ensures y in Succ(es, x) <==> IsEdge(es, x, y)
  {
    if es != [] {
      var n := |es| - 1;
      SuccEdge(es[..n], x, y);
      if IsEdge(es[..n], x, y) {
        var i :| 0 <= i < n && es[..n][i].from == x && es[..n][i].to == y;
        assert es[i].from == x && es[i].to == y;
      }
      if IsEdge(es, x, y) && !(es[n].from == x && es[n].to == y) {
        var i :| 0 <= i < |es| && es[i].from == x && es[i].to == y;
        assert es[..n][i] == es[i];
      }
    }
  }

  // ---------------------------------------------------------------- costs

  ghost function PathCost(cost: map<string, real>, p: seq<string>): (c: real)
    requires forall x :: x in p ==> x in cost
  {
    if p == [] then 0.0 else PathCost(cost, p[..|p| - 1]) + cost[Last(p)]
  }

  /** A directed path through known nodes. */
  ghost predicate Path(es: seq<Edge>, cost: map<string, real>, p: seq<string>) {
    Walk(es, p) && forall x :: x in p ==> x in cost
  }

  /** The best-arrival equations that the scan establishes. */
  ghost predicate Arrivals(es: seq<Edge>, cost: map<string, real>, arrive: map<string, real>) {
    && arrive.Keys == cost.Keys
    && (forall x :: x in arrive ==> arrive[x] >= cost[x])
    && (forall i :: 0 <= i < |es| ==> es[i].from in arrive && es[i].to in arrive
                                      && arrive[es[i].from] + cost[es[i].to] <= arrive[es[i].to])
  }

  lemma {:induction false} ArrivalBound(es: seq<Edge>, cost: map<string, real>, arrive: map<string, real>,
                                        p: seq<string>)
    requires Arrivals(es, cost, arrive) && Path(es, cost, p)
    ensures PathCost(cost, p) <= arrive[Last(p)]
  {
    var n := |p| - 1;
    if n > 0 {
      SubWalk(es, p, 0, n);
      ArrivalBound(es, cost, arrive, p[..n]);
      assert IsEdge(es, p[n - 1], p[n - 1 + 1]);
    } else {
      assert p[..n] == [];
    }
  }

  lemma {:induction false} CostFront(cost: map<string, real>, p: seq<string>)
    requires p != [] && forall x :: x in p ==> x in cost
    ensures PathCost(cost, p) == cost[p[0]] + PathCost(cost, p[1..])
  {
    var n := |p| - 1;
    if n > 0 {
      CostFront(cost, p[..n]);
      assert p[..n][1..] == p[1..][..n - 1];
      assert Last(p[1..]) == Last(p);
    } else {
      assert p[..n] == [];
    }
  }
}
