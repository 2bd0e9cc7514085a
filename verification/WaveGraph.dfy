/**
 The dependency graph that dispatch waves are cut from. The graph is built in place; its levels are
 found by Kahn's algorithm and its critical path by one scan in level order.
 */
module WaveGraphs {
  import opened Seqs
  import opened StringOrder
  import opened WaveTheory

  datatype Node = Node(id: string, kind: string, operation: string, cost: real, priority: int, fusionGroup: string,
    partition: string)

  /** One dispatch wave: its level, its nodes in name order, and the fusion groups among them. */
  datatype Wave = Wave(level: nat, nodes: seq<string>, groups: map<string, seq<string>>)

  // ---------------------------------------------------------------- the state of Kahn's algorithm

  /** `indeg` counts the edges from unfinished nodes, less those already released. */
  ghost predicate Degrees(es: seq<Edge>, vs: set<string>, done: set<string>, released: multiset<string>,
                          indeg: map<string, int>) {
    indeg.Keys == vs && forall x :: x in vs ==> indeg[x] == Waiting(es, done, x) - released[x]
  }

  /** The nodes without waiting edges are exactly `front`. */
  ghost predicate Ready(front: set<string>, indeg: map<string, int>) {
    forall x :: x in front <==> x in indeg && indeg[x] == 0
  }

  /** Every level is attained by a chain. */
  ghost predicate Chains(es: seq<Edge>, level: map<string, nat>, chain: map<string, seq<string>>) {
    && chain.Keys == level.Keys
    && forall x :: x in level ==> Walk(es, chain[x]) && Last(chain[x]) == x && |chain[x]| == level[x] + 1
  }

  /** Every edge out of a finished node goes up a level. */
  ghost predicate Lifted(es: seq<Edge>, done: set<string>, level: map<string, nat>) {
    forall i :: 0 <= i < |es| && es[i].from in done ==>
                  es[i].from in level && es[i].to in level && level[es[i].from] + 1 <= level[es[i].to]
  }

  ghost predicate LiftedTo(id: string, released: multiset<string>, level: map<string, nat>) {
    id in level && forall y :: y in released ==> y in level && level[id] + 1 <= level[y]
  }

  /** The successor about to be released still waits, so it is neither finished nor queued. */
  lemma StillWaiting(es: seq<Edge>, vs: set<string>, done: set<string>, id: string, succ: seq<string>, i: nat,
                     indeg: map<string, int>, front: set<string>)
    requires id !in done && multiset(succ) == multiset(Succ(es, id)) && i < |succ| && succ[i] in vs
    requires Degrees(es, vs, done, multiset(succ[..i]), indeg) && Ready(front, indeg)
    ensures succ[i] in indeg && indeg[succ[i]] > 0 && succ[i] !in front
  {
    Release(es, done, id, succ[i]);
    assert succ == succ[..i] + succ[i..];
    assert succ[i..][0] == succ[i];
  }

  lemma ReleaseOne(es: seq<Edge>, vs: set<string>, done: set<string>, succ: seq<string>, i: nat,
                   indeg: map<string, int>, front: set<string>)
    requires i < |succ| && succ[i] in vs
    requires Degrees(es, vs, done, multiset(succ[..i]), indeg) && Ready(front, indeg) && indeg[succ[i]] > 0
    ensures var indeg' := indeg[succ[i] := indeg[succ[i]] - 1];
            && Degrees(es, vs, done, multiset(succ[..i + 1]), indeg')
            && Ready(if indeg'[succ[i]] == 0 then front + {succ[i]} else front, indeg')
  {
    assert succ[..i + 1] == succ[..i] + [succ[i]];
  }

  lemma LiftOne(es: seq<Edge>, done: set<string>, id: string, to: string, level: map<string, nat>,
                chain: map<string, seq<string>>)
    requires Chains(es, level, chain) && Lifted(es, done, level)
    requires to !in done && id != to && id in level && IsEdge(es, id, to)
    ensures var level' := Raise(level, id, to);
            var chain' := if level' == level then chain else chain[to := chain[id] + [to]];
            && Chains(es, level', chain') && Lifted(es, done, level')
            && level'.Keys == level.Keys + {to}
  {
    hide IsEdge;
    WalkOn(es, chain[id], to);
    hide Walk;
  }

  lemma FinishOne(es: seq<Edge>, vs: set<string>, done: set<string>, id: string, succ: seq<string>,
                  indeg: map<string, int>, level: map<string, nat>)
    requires Degrees(es, vs, done, multiset(succ), indeg) && Lifted(es, done, level)
    requires LiftedTo(id, multiset(succ), level)
    requires id !in done && multiset(succ) == multiset(Succ(es, id))
    ensures Degrees(es, vs, done + {id}, multiset{}, indeg) && Lifted(es, done + {id}, level)
  {
    forall x ensures Waiting(es, done, x) == Waiting(es, done + {id}, x) + multiset(succ)[x] {
      Release(es, done, id, x);
    }
    forall i | 0 <= i < |es| && es[i].from == id ensures es[i].to in multiset(succ) {
      SuccEdge(es, id, es[i].to);
      assert es[i].to in multiset(Succ(es, id));
    }
  }

  /** With an empty queue, unfinished nodes all wait for unfinished nodes. */
  lemma LeftoverStuck(es: seq<Edge>, vs: set<string>, done: set<string>, indeg: map<string, int>)
    requires Degrees(es, vs, done, multiset{}, indeg) && Ready(done, indeg)
    requires forall i :: 0 <= i < |es| ==> es[i].from in vs
    ensures Stuck(es, vs - done)
  {
    forall x | x in vs - done ensures exists y :: y in vs - done && IsEdge(es, y, x) {
      assert indeg[x] != 0;
      WaitingZero(es, done, x);
      var i :| 0 <= i < |es| && es[i].to == x && es[i].from !in done;
      assert IsEdge(es, es[i].from, x);
    }
  }

  lemma NothingDone(es: seq<Edge>, level: map<string, nat>)
    ensures Lifted(es, {}, level)
  {
  }

  lemma RootChains(es: seq<Edge>, level: map<string, nat>)
    requires forall x :: x in level ==> level[x] == 0
    ensures Chains(es, level, map x | x in level :: [x])
  {
  }

  lemma AllLifted(es: seq<Edge>, vs: set<string>, level: map<string, nat>, chain: map<string, seq<string>>)
    requires Lifted(es, vs, level) && Chains(es, level, chain)
    requires forall i :: 0 <= i < |es| ==> es[i].from in vs
    ensures Ranks(es, level) && Acyclic(es) && forall x :: x in level ==> LongestChain(es, x, level[x])
  {
    assert Ranks(es, level);
    RanksAcyclic(es, level);
    forall x | x in level ensures LongestChain(es, x, level[x]) {
      RanksLongest(es, level, x, chain[x]);
    }
  }

  lemma LiftedMore(id: string, succ: seq<string>, i: nat, level: map<string, nat>)
    requires i < |succ| && succ[i] != id && LiftedTo(id, multiset(succ[..i]), level)
    ensures LiftedTo(id, multiset(succ[..i + 1]), Raise(level, id, succ[i]))
  {
    assert succ[..i + 1] == succ[..i] + [succ[i]];
  }

  /** Between two nodes: `done` is finished, `waiting` is queued. */
  ghost predicate Kahn(es: seq<Edge>, vs: set<string>, done: set<string>, waiting: set<string>, queue: seq<string>,
                       count: map<string, int>, level: map<string, nat>, chain: map<string, seq<string>>) {
    && multiset(queue) == multiset(waiting) && done !! waiting && done + waiting <= level.Keys <= vs
    && Degrees(es, vs, done, multiset{}, count) && Ready(done + waiting, count)
    && Chains(es, level, chain) && Lifted(es, done, level)
  }

  ghost predicate Queued(vs: set<string>, done: set<string>, id: string, waiting: set<string>, queue: seq<string>,
                         known: set<string>) {
    && id !in done && id !in waiting && done !! waiting && done + waiting <= known <= vs
    && multiset(queue) == multiset(waiting)
  }

  lemma QueueTake(vs: set<string>, done: set<string>, waiting: set<string>, queue: seq<string>, known: set<string>)
    requires queue != [] && multiset(queue) == multiset(waiting) && done !! waiting && done + waiting <= known <= vs
    ensures Queued(vs, done, queue[0], waiting - {queue[0]}, queue[1..], known) && queue[0] in known
    ensures done + {queue[0]} + (waiting - {queue[0]}) == done + waiting
  {
    var id := queue[0];
    assert queue == [id] + queue[1..];
    assert id in multiset(queue);
    assert multiset(waiting - {id}) == multiset(waiting) - multiset{id};
  }

  lemma NothingReleased(id: string, succ: seq<string>, level: map<string, nat>)
    requires id in level
    ensures multiset(succ[..0]) == multiset{} && LiftedTo(id, multiset(succ[..0]), level)
  {
    assert succ[..0] == [];
  }

  lemma QueueMore(vs: set<string>, done: set<string>, id: string, waiting: set<string>, queue: seq<string>,
                  known: set<string>, to: string, queue': seq<string>)
    requires Queued(vs, done, id, waiting, queue, known) && to in vs && to !in done && to !in waiting && to != id
    requires multiset(queue') == multiset(queue + [to])
    ensures Queued(vs, done, id, waiting + {to}, queue', known + {to})
    ensures done + {id} + (waiting + {to}) == done + {id} + waiting + {to}
  {
    assert multiset(waiting + {to}) == multiset(waiting) + multiset{to};
  }

  lemma QueueSame(vs: set<string>, done: set<string>, id: string, waiting: set<string>, queue: seq<string>,
                  known: set<string>, to: string, queue': seq<string>)
    requires Queued(vs, done, id, waiting, queue, known) && to in vs && multiset(queue') == multiset(queue)
    ensures Queued(vs, done, id, waiting, queue', known + {to})
  {
  }

  /** While `id` is being finished: its first `i` successors have been released. */
  ghost predicate Mid(es: seq<Edge>, vs: set<string>, done: set<string>, id: string, succ: seq<string>, i: nat,
                      waiting: set<string>, queue: seq<string>,
                      count: map<string, int>, level: map<string, nat>, chain: map<string, seq<string>>)
    requires i <= |succ|
  {
    && multiset(succ) == multiset(Succ(es, id)) && Queued(vs, done, id, waiting, queue, level.Keys)
    && Degrees(es, vs, done, multiset(succ[..i]), count) && Ready(done + {id} + waiting, count)
    && Chains(es, level, chain) && Lifted(es, done, level) && LiftedTo(id, multiset(succ[..i]), level)
  }

  /** The level of `to` once `id` is known to precede it. */
  function Raise(level: map<string, nat>, id: string, to: string): (r: map<string, nat>)
    requires id in level
  {
    if level[id] + 1 > (if to in level then level[to] else 0) then level[to := level[id] + 1] else level
  }

  lemma MidStart(es: seq<Edge>, vs: set<string>, done: set<string>, waiting: set<string>, queue: seq<string>,
                 count: map<string, int>, level: map<string, nat>, chain: map<string, seq<string>>, succ: seq<string>)
    requires Kahn(es, vs, done, waiting, queue, count, level, chain) && queue != []
    requires multiset(succ) == multiset(Succ(es, queue[0]))
    ensures queue[0] in vs && queue[0] !in done
    ensures Mid(es, vs, done, queue[0], succ, 0, waiting - {queue[0]}, queue[1..], count, level, chain)
  {
    hide Degrees, Ready, Chains, Lifted, Queued, Succ;
    QueueTake(vs, done, waiting, queue, level.Keys);
    NothingReleased(queue[0], succ, level);
  }

  /** The next successor is known, waits, and is neither finished nor queued. */
  lemma MidNext(es: seq<Edge>, vs: set<string>, done: set<string>, id: string, succ: seq<string>, i: nat,
                waiting: set<string>, queue: seq<string>, count: map<string, int>, level: map<string, nat>,
                  chain: map<string, seq<string>>)
    requires i < |succ| && Mid(es, vs, done, id, succ, i, waiting, queue, count, level, chain)
    requires forall k :: 0 <= k < |es| ==> es[k].to in vs
    ensures var to := succ[i];
            && id in level && id in chain && to in vs && to in count && count[to] > 0
            && IsEdge(es, id, to) && to !in done && to !in waiting && to != id
  {
    hide Ready, Lifted;
    assert succ[i] in multiset(succ);
    SuccEdge(es, id, succ[i]);
    StillWaiting(es, vs, done, id, succ, i, count, done + {id} + waiting);
  }

  lemma MidStep(es: seq<Edge>, vs: set<string>, done: set<string>, id: string, succ: seq<string>, i: nat,
                waiting: set<string>, queue: seq<string>, count: map<string, int>, level: map<string, nat>,
                  chain: map<string, seq<string>>,
                queue': seq<string>)
    requires i < |succ| && Mid(es, vs, done, id, succ, i, waiting, queue, count, level, chain)
    requires forall k :: 0 <= k < |es| ==> es[k].to in vs
    requires succ[i] in count
    requires multiset(queue') == if count[succ[i]] == 1 then multiset(queue + [succ[i]]) else multiset(queue)
    ensures id in level && id in chain
    ensures var to := succ[i];
            Mid(es, vs, done, id, succ, i + 1, if count[to] == 1 then waiting + {to} else waiting, queue',
                count[to := count[to] - 1], Raise(level, id, to),
                if Raise(level, id, to) == level then chain else chain[to := chain[id] + [to]])
  {
    var to := succ[i];
    MidNext(es, vs, done, id, succ, i, waiting, queue, count, level, chain);
    hide IsEdge, Degrees, Ready, Chains, Lifted, LiftedTo, Queued, Raise, Succ;
    ReleaseOne(es, vs, done, succ, i, count, done + {id} + waiting);
    LiftOne(es, done, id, to, level, chain);
    LiftedMore(id, succ, i, level);
    if count[to] == 1 {
      QueueMore(vs, done, id, waiting, queue, level.Keys, to, queue');
    } else {
      QueueSame(vs, done, id, waiting, queue, level.Keys, to, queue');
    }
  }

  lemma MidEnd(es: seq<Edge>, vs: set<string>, done: set<string>, id: string, succ: seq<string>,
               waiting: set<string>, queue: seq<string>, count: map<string, int>, level: map<string, nat>,
               chain: map<string, seq<string>>)
    requires Mid(es, vs, done, id, succ, |succ|, waiting, queue, count, level, chain)
    ensures Kahn(es, vs, done + {id}, waiting, queue, count, level, chain)
  {
    assert succ[..|succ|] == succ;
    FinishOne(es, vs, done, id, succ, count, level);
    assert id in level;
    hide Degrees, Ready, Chains, Lifted;
  }

  /** One more edge raises the in-degree of its target. */
  lemma EdgeCounted(es: seq<Edge>, vs: set<string>, indeg: map<string, int>, e: Edge)
    requires Degrees(es, vs, {}, multiset{}, indeg) && e.to in vs
    ensures Degrees(es + [e], vs, {}, multiset{}, indeg[e.to := indeg[e.to] + 1])
  {
    assert (es + [e])[..|es|] == es;
  }

  function EdgesOf(adj: map<string, seq<string>>, x: string): (r: seq<string>) {
    if x in adj then adj[x] else []
  }

  /** The adjacency lists hold each node's edges in order. */
  ghost predicate Adjacent(adj: map<string, seq<string>>, es: seq<Edge>) {
    forall x :: EdgesOf(adj, x) == Succ(es, x)
  }

  lemma AdjacentMore(adj: map<string, seq<string>>, es: seq<Edge>, e: Edge)
    requires Adjacent(adj, es)
    ensures Adjacent(adj[e.from := EdgesOf(adj, e.from) + [e.to]], es + [e])
  {
    var adj' := adj[e.from := EdgesOf(adj, e.from) + [e.to]];
    assert (es + [e])[..|es|] == es;
    forall x ensures EdgesOf(adj', x) == Succ(es + [e], x) {
      assert Succ(es, x) + [] == Succ(es, x);
    }
  }

  class WaveGraph {
    var nodes: map<string, Node>
    var order: seq<string>
    var edges: seq<Edge>
    var adj: map<string, seq<string>>
    var indeg: map<string, int>

    /** The adjacency lists and in-degrees agree with the edge list, and the order lists the nodes. */
    ghost predicate Valid()
      reads this
    {
      && Distinct(order) && Elems(order) == nodes.Keys && "" !in nodes
      && (forall i :: 0 <= i < |edges| ==> edges[i].from in nodes && edges[i].to in nodes)
      && Degrees(edges, nodes.Keys, {}, multiset{}, indeg)
      && Adjacent(adj, edges)
    }

    function Successors(x: string): (r: seq<string>)
      reads this`adj
    {
      EdgesOf(adj, x)
    }

    ghost function Costs(): (c: map<string, real>)
      reads this`nodes
      ensures c.Keys == nodes.Keys
    {
      map x | x in nodes :: nodes[x].cost
    }

    constructor ()
      ensures Valid() && nodes == map[] && order == [] && edges == []
    {
      nodes, order, edges, adj, indeg := map[], [], [], map[], map[];
    }

    method AddNode(n: Node) returns (ok: bool)
      requires Valid()
      modifies this
      ensures Valid() && ok == (n.id != "") && edges == old(edges)
      ensures nodes == if ok then old(nodes)[n.id := n] else old(nodes)
      ensures order == if ok && n.id !in old(nodes) then old(order) + [n.id] else old(order)
    {
      if n.id == "" {
        return false;
      }
      if n.id !in nodes {
        WaitingZero(edges, {}, n.id);
        order := order + [n.id];
        indeg := indeg[n.id := 0];
        assert Elems(order) == old(Elems(order)) + {n.id};
      }
      nodes := nodes[n.id := n];
      ok := true;
    }

    method AddEdge(e: Edge) returns (ok: bool)
      requires Valid()
      modifies this
      ensures Valid() && ok == (e.from in nodes && e.to in nodes)
      ensures edges == if ok then old(edges) + [e] else old(edges)
      ensures nodes == old(nodes) && order == old(order)
    {
      if e.from !in nodes {
        return false;
      }
      if e.to !in nodes {
        return false;
      }
      hide Degrees, Adjacent, Distinct, Elems;
      EdgeCounted(edges, nodes.Keys, indeg, e);
      AdjacentMore(adj, edges, e);
      edges := edges + [e];
      adj := adj[e.from := Successors(e.from) + [e.to]];
      indeg := indeg[e.to := indeg[e.to] + 1];
      ok := true;
    }

    /** The nodes nothing points at, in name order, each at level zero. */
    method Roots() returns (queue: seq<string>, level: map<string, nat>)
      requires Valid()
      ensures multiset(queue) == multiset(level.Keys)
      ensures forall x :: x in level <==> x in indeg && indeg[x] == 0
      ensures level.Keys <= nodes.Keys && forall x :: x in level ==> level[x] == 0
    {
      level, queue := map[], [];
      for i := 0 to |order|
        invariant forall x :: x in level <==> x in order[..i] && x in indeg && indeg[x] == 0
        invariant forall x :: x in level ==> level[x] == 0
        invariant multiset(queue) == multiset(level.Keys)
      {
        assert order[..i + 1] == order[..i] + [order[i]];
        assert order[i] in nodes.Keys;
        assert order[i] !in order[..i];
        if indeg[order[i]] == 0 {
          queue := queue + [order[i]];
          assert multiset(level[order[i] := 0].Keys) == multiset(level.Keys) + multiset{order[i]};
          level := level[order[i] := 0];
        }
      }
      assert order[..|order|] == order;
      forall x | x in indeg ensures x in order { assert x in nodes.Keys; }
      AtMostOrder();
      queue := SortBy(queue, AtMost);
    }

    /** Finishes the head of the queue: raises its successors and queues those left ready. */
    method Finish(queue0: seq<string>, count0: map<string, int>, level0: map<string, nat>,
                  ghost done: set<string>, ghost waiting0: set<string>, ghost chain0: map<string, seq<string>>)
      returns (queue: seq<string>, count: map<string, int>, level: map<string, nat>,
               ghost waiting: set<string>, ghost chain: map<string, seq<string>>)
      requires Valid() && queue0 != [] && Kahn(edges, nodes.Keys, done, waiting0, queue0, count0, level0, chain0)
      ensures queue0[0] in nodes && queue0[0] !in done
      ensures Kahn(edges, nodes.Keys, done + {queue0[0]}, waiting, queue, count, level, chain)
    {
      hide Valid, Kahn, Mid, IsOrder, SortedBy, Succ, IsEdge;
      Listing();
      var id := queue0[0];
      SuccessorsAre(id);
      AtMostOrder();
      var succ := SortBy(Successors(id), AtMost);
      queue, count, level, waiting, chain := queue0[1..], count0, level0, waiting0 - {id}, chain0;
      MidStart(edges, nodes.Keys, done, waiting0, queue0, count0, level0, chain0, succ);
      for i := 0 to |succ|
        invariant Mid(edges, nodes.Keys, done, id, succ, i, waiting, queue, count, level, chain)
      {
        var to := succ[i];
        MidNext(edges, nodes.Keys, done, id, succ, i, waiting, queue, count, level, chain);
        var queue1 := queue;
        if count[to] == 1 {
          queue1 := SortBy(queue + [to], AtMost);
        }
        MidStep(edges, nodes.Keys, done, id, succ, i, waiting, queue, count, level, chain, queue1);
        if level[id] + 1 > (if to in level then level[to] else 0) {
          chain := chain[to := chain[id] + [to]];
          level := level[to := level[id] + 1];
        }
        waiting := if count[to] == 1 then waiting + {to} else waiting;
        count := count[to := count[to] - 1];
        queue := queue1;
      }
      MidEnd(edges, nodes.Keys, done, id, succ, waiting, queue, count, level, chain);
    }

    lemma Listing()
      requires Valid()
      ensures |order| == |nodes| && Degrees(edges, nodes.Keys, {}, multiset{}, indeg)
      ensures forall i :: 0 <= i < |edges| ==> edges[i].from in nodes && edges[i].to in nodes
    {
      DistinctSize(order);
    }

    lemma SuccessorsAre(id: string)
      requires Valid()
      ensures Successors(id) == Succ(edges, id)
    {
    }

    /**
     Kahn's algorithm. Levels exist exactly when the graph has no cycle, and a node's level is then
     the length of the longest chain of dependencies into it.
     */
    method TopoLevels() returns (level: map<string, nat>, ok: bool)
      requires Valid()
      ensures ok <==> Acyclic(edges)
      ensures ok ==> level.Keys == nodes.Keys && Ranks(edges, level)
      ensures ok ==> forall x :: x in level ==> LongestChain(edges, x, level[x])
      ensures !ok ==> level == map[]
    {
      hide *;
      Listing();
      var count := indeg;
      var queue;
      queue, level := Roots();
      ghost var done: set<string> := {};
      ghost var waiting := level.Keys;
      ghost var chain := map x | x in level :: [x];
      KahnStart(edges, nodes.Keys, queue, count, level);
      var processed := 0;
      while queue != []
        invariant done <= nodes.Keys && processed == |done|
        invariant Kahn(edges, nodes.Keys, done, waiting, queue, count, level, chain)
        decreases nodes.Keys - done
      {
        ghost var id := queue[0];
        queue, count, level, waiting, chain := Finish(queue, count, level, done, waiting, chain);
        processed := processed + 1;
        done := done + {id};
      }
      KahnEnd(edges, nodes.Keys, done, waiting, count, level, chain);
      SubsetSize(done, nodes.Keys);
      if processed != |order| {
        return map[], false;
      }
      ok := true;
    }

    /** The node names of each level, in insertion order, and the highest level. */
    method ByLevel(levels: map<string, nat>) returns (byLevel: map<nat, seq<string>>, maxLevel: nat)
      requires Valid() && levels.Keys == nodes.Keys
      ensures Filled(levels, nodes.Keys, byLevel)
      ensures forall x :: x in levels ==> levels[x] <= maxLevel
      ensures nodes != map[] ==> exists x :: x in levels && levels[x] == maxLevel
    {
      hide Valid, Filled;
      byLevel, maxLevel := map[], 0;
      OrderListed(order);
      NothingFilled(levels);
      assert Elems(order[..0]) == {};
      ghost var top := if order == [] then "" else order[0];
      for i := 0 to |order|
        invariant Filled(levels, Elems(order[..i]), byLevel)
        invariant forall k :: 0 <= k < i ==> levels[order[k]] <= maxLevel
        invariant i > 0 ==> top in levels && levels[top] == maxLevel
        invariant i == 0 ==> maxLevel == 0
      {
        var id := order[i];
        assert id in Elems(order);
        FillMore(levels, order, i, byLevel);
        var lv := levels[id];
        byLevel := byLevel[lv := (if lv in byLevel then byLevel[lv] else []) + [id]];
        top := if i == 0 || lv > maxLevel then id else top;
        if lv > maxLevel {
          maxLevel := lv;
        }
      }
      assert order[..|order|] == order;
      forall x | x in levels ensures levels[x] <= maxLevel { assert x in Elems(order); }
    }

    /** The fusion groups among the nodes of one wave. */
    method Groups(ids: seq<string>) returns (groups: map<string, seq<string>>)
      requires forall x :: x in ids ==> x in nodes
      ensures GroupsOf(nodes, ids, groups)
    {
      groups := map[];
      for i := 0 to |ids|
        invariant GroupsOf(nodes, ids[..i], groups)
      {
        assert ids[..i + 1][..i] == ids[..i];
        var g := nodes[ids[i]].fusionGroup;
        GroupsMore(nodes, ids, i, groups);
        if g != "" {
          groups := groups[g := (if g in groups then groups[g] else []) + [ids[i]]];
        }
      }
      assert ids[..|ids|] == ids;
    }

    /** Cuts the graph into waves by level, or reports a cycle. */
    method Waves() returns (waves: seq<Wave>, ok: bool)
      requires Valid()
      ensures ok <==> Acyclic(edges)
      ensures if ok then CutInWaves(edges, nodes, waves) else waves == []
    {
      hide Valid, LongestChain, Ranks, Acyclic, IsOrder, SortedBy, WaveOk, GroupsOf;
      waves := [];
      var levels;
      levels, ok := TopoLevels();
      if !ok {
        return;
      }
      var byLevel, maxLevel := ByLevel(levels);
      AtMostOrder();
      for lv := 0 to maxLevel + 1
        invariant nodes == map[] ==> waves == []
        invariant nodes != map[] ==> |waves| == lv
        invariant forall k :: 0 <= k < |waves| ==> WaveOk(edges, nodes, waves[k], k)
      {
        var ids := Listed(byLevel, lv);
        assert multiset(ids) == multiset(AtLevel(levels, nodes.Keys, lv));
        LevelFilled(edges, nodes.Keys, levels, maxLevel, lv, ids);
        if ids != [] {
          ids := SortBy(ids, AtMost);
          WaveNodes(edges, nodes, levels, lv, ids);
          var groups := Groups(ids);
          assert WaveOk(edges, nodes, Wave(lv, ids, groups),
            lv) by { WaveMade(edges, nodes, Wave(lv, ids, groups), lv); }
          waves := waves + [Wave(lv, ids, groups)];
        }
      }
      WavesComplete(edges, nodes, levels, maxLevel, waves);
    }

    // -------------------------------------------------------------- the critical path

    /** Propagates the cost of `id` to its successors. */
    method Propagate(id: string, incoming0: map<string, real>, dist: map<string, real>, pred0: map<string, string>,
                     ghost done: set<string>)
      returns (incoming: map<string, real>, pred: map<string, string>)
      requires Valid() && id in nodes && id !in done && id in dist
      requires forall y :: IsEdge(edges, id, y) ==> y !in done && y != id
      requires Scanned(edges, Costs(), done, incoming0, dist - {id}, pred0)
      requires dist[id] == Inflow(incoming0, id) + nodes[id].cost
      ensures Scanned(edges, Costs(), done + {id}, incoming, dist, pred)
    {
      hide Valid, IsEdge, Scanned, ScanMid, Succ;
      SuccessorsAre(id);
      incoming, pred := incoming0, pred0;
      var succ := Successors(id);
      ScanStart(edges, Costs(), done, id, succ, incoming, dist, pred);
      for i := 0 to |succ|
        invariant ScanMid(edges, Costs(), done, id, succ[..i], incoming, dist, pred)
      {
        SuccEdge(edges, id, succ[i]);
        ScanStep(edges, Costs(), done, id, succ, i, incoming, dist, pred);
        var to := succ[i];
        if dist[id] > (if to in incoming then incoming[to] else 0.0) {
          incoming := incoming[to := dist[id]];
          pred := pred[to := id];
        }
      }
      assert succ[..|succ|] == succ;
      ScanEnd(edges, Costs(), done, id, succ, incoming, dist, pred);
    }

    /** Follows the recorded predecessors back from `best`. */
    method Trace(best: string, dist: map<string, real>, pred: map<string, string>, incoming: map<string, real>,
                 ghost level: map<string, nat>)
      returns (path: seq<string>)
      requires Scanned(edges, Costs(), nodes.Keys, incoming, dist, pred) && best in nodes
      requires level.Keys == nodes.Keys && Ranks(edges, level)
      ensures Path(edges, Costs(), path) && PathCost(Costs(), path) == dist[best]
    {
      hide Scanned, Walk, IsEdge;
      path := [best];
      var id := best;
      TraceStart(edges, Costs(), incoming, dist, pred, best);
      while id in pred
        invariant id in nodes && Traced(edges, Costs(), dist, best, id, path)
        decreases level[id]
      {
        TraceStep(edges, Costs(), incoming, dist, pred, level, best, id, path);
        id := pred[id];
        path := [id] + path;
      }
      TraceEnd(edges, Costs(), incoming, dist, pred, best, id, path);
    }

    /** Costs every node in level order and keeps a most expensive one, the empty name if there is none. */
    method Scan(ord: seq<string>, ghost levels: map<string, nat>)
      returns (incoming: map<string, real>, dist: map<string, real>, pred: map<string, string>, best: string)
      requires Valid() && Distinct(ord) && Elems(ord) == nodes.Keys == levels.Keys && "" !in nodes
      requires Ranks(edges, levels) && SortedBy(ord, (a, b) => NotAfter(levels, a, b))
      ensures Scanned(edges, Costs(), nodes.Keys, incoming, dist, pred)
      ensures if ord == [] then best == "" else best in nodes && best in dist && Top(dist, best)
    {
      hide Valid, Ranks, SortedBy, Scanned, IsEdge, Top, Distinct;
      incoming, dist, pred, best := map[], map[], map[], "";
      ScanNone(edges, Costs());
      assert Elems(ord[..0]) == {};
      for i := 0 to |ord|
        invariant Scanned(edges, Costs(), Elems(ord[..i]), incoming, dist, pred) && dist.Keys == Elems(ord[..i])
        invariant if i == 0 then best == "" else best in dist && best in nodes && Top(dist, best)
      {
        var id := ord[i];
        NextInOrder(edges, levels, ord, i);
        TopMore(dist, id, (if id in incoming then incoming[id] else 0.0) + nodes[id].cost, best);
        dist := dist[id := (if id in incoming then incoming[id] else 0.0) + nodes[id].cost];
        incoming, pred := Propagate(id, incoming, dist, pred, Elems(ord[..i]));
        if best == "" || dist[id] > dist[best] {
          best := id;
        }
      }
      assert ord[..|ord|] == ord;
    }

    /** A directed path that no directed path outweighs; none for an empty or cyclic graph. */
    method CriticalPath() returns (path: seq<string>)
      requires Valid()
      ensures !Acyclic(edges) || nodes == map[] ==> path == []
      ensures Acyclic(edges) && nodes != map[] ==>
                Path(edges, Costs(), path) && forall q :: Path(edges, Costs(), q) ==>
                  PathCost(Costs(), q) <= PathCost(Costs(), path)
    {
      hide Valid, LongestChain, Ranks, Acyclic, IsOrder, SortedBy, Scanned, IsEdge, Walk, PathCost, Top, Distinct;
      path := [];
      var levels, ok := TopoLevels();
      if !ok {
        return;
      }
      ByLevelOrder(levels);
      var ord := SortBy(order, (a, b) => NotAfter(levels, a, b));
      Listing();
      OrderListed(ord);
      var incoming, dist, pred, best := Scan(ord, levels);
      if best == "" {
        return;
      }
      path := Trace(best, dist, pred, incoming, levels);
      ScanBest(edges, Costs(), incoming, dist, pred, best);
    }

    lemma OrderListed(ord: seq<string>)
      requires Valid() && multiset(ord) == multiset(order)
      ensures Elems(ord) == nodes.Keys && Distinct(ord) && "" !in nodes && (ord == [] <==> nodes == map[])
    {
      SameElements(order, ord);
      if ord != [] {
        assert ord[0] in Elems(ord);
      } else {
        assert nodes.Keys == {};
      }
    }
  }

  lemma KahnStart(es: seq<Edge>, vs: set<string>, queue: seq<string>, count: map<string, int>, level: map<string, nat>)
    requires Degrees(es, vs, {}, multiset{}, count) && multiset(queue) == multiset(level.Keys) && level.Keys <= vs
    requires forall x :: x in level <==> x in count && count[x] == 0
    requires forall x :: x in level ==> level[x] == 0
    ensures Kahn(es, vs, {}, level.Keys, queue, count, level, map x | x in level :: [x])
  {
    NothingDone(es, level);
    RootChains(es, level);
    assert {} + level.Keys == level.Keys;
  }

  /** With the queue empty, either everything is finished or a cycle is left. */
  lemma KahnEnd(es: seq<Edge>, vs: set<string>, done: set<string>, waiting: set<string>,
                count: map<string, int>, level: map<string, nat>, chain: map<string, seq<string>>)
    requires Kahn(es, vs, done, waiting, [], count, level, chain)
    requires forall i :: 0 <= i < |es| ==> es[i].from in vs
    ensures done == vs ==> level.Keys == vs && Ranks(es, level) && Acyclic(es)
    ensures done == vs ==> forall x :: x in level ==> LongestChain(es, x, level[x])
    ensures done != vs ==> !Acyclic(es)
  {
    hide Degrees, Ready, Chains, Lifted, Ranks, Acyclic, LongestChain, Stuck;
    assert waiting == {} by { if x :| x in waiting { assert x in multiset(waiting); } }
    assert done + waiting == done;
    if done == vs {
      AllLifted(es, vs, level, chain);
    } else {
      LeftoverStuck(es, vs, done, count);
      assert vs - done != {} by { assert done <= vs; }
      StuckCycle(es, vs - done);
    }
  }

  // ---------------------------------------------------------------- waves

  ghost function AtLevel(levels: map<string, nat>, ks: set<string>, lv: nat): (r: set<string>) {
    set x | x in ks && x in levels && levels[x] == lv
  }

  /** Each level lists its nodes among `ks`, each once. */
  ghost predicate Filled(levels: map<string, nat>, ks: set<string>, byLevel: map<nat, seq<string>>) {
    forall lv: nat :: multiset(Listed(byLevel, lv)) == multiset(AtLevel(levels, ks, lv))
  }

  function Listed(byLevel: map<nat, seq<string>>, lv: nat): (ids: seq<string>) {
    if lv in byLevel then byLevel[lv] else []
  }

  lemma NothingFilled(levels: map<string, nat>)
    ensures Filled(levels, {}, map[])
  {
    forall lv: nat ensures AtLevel(levels, {}, lv) == {} {}
  }

  lemma FillMore(levels: map<string, nat>, order: seq<string>, i: nat, byLevel: map<nat, seq<string>>)
    requires Distinct(order) && i < |order| && order[i] in levels && Filled(levels, Elems(order[..i]), byLevel)
    ensures Filled(levels, Elems(order[..i + 1]),
      byLevel[levels[order[i]] := Listed(byLevel, levels[order[i]]) + [order[i]]])
  {
    var id := order[i];
    var after := byLevel[levels[id] := Listed(byLevel, levels[id]) + [id]];
    assert order[..i + 1] == order[..i] + [id];
    assert Elems(order[..i + 1]) == Elems(order[..i]) + {id};
    forall lv: nat ensures multiset(Listed(after, lv)) == multiset(AtLevel(levels, Elems(order[..i + 1]), lv)) {
      LevelMore(levels, Elems(order[..i]), id, lv);
    }
  }

  lemma LevelMore(levels: map<string, nat>, ks: set<string>, id: string, lv: nat)
    requires id in levels && id !in ks
    ensures multiset(AtLevel(levels, ks + {id}, lv)) ==
            multiset(AtLevel(levels, ks, lv)) + if lv == levels[id] then multiset{id} else multiset{}
  {
    var a := AtLevel(levels, ks, lv);
    assert AtLevel(levels, ks + {id}, lv) == if lv == levels[id] then a + {id} else a;
  }

  /** The members of a fusion group in wave order. */
  ghost function Members(nodes: map<string, Node>, ids: seq<string>, g: string): (r: seq<string>)
    requires forall x :: x in ids ==> x in nodes
  {
    if ids == [] then []
    else
      var x := ids[|ids| - 1];
      Members(nodes, ids[..|ids| - 1], g) + if nodes[x].fusionGroup == g then [x] else []
  }

  /** Every named group present among `ids` lists its members, and nothing else is a group. */
  ghost predicate GroupsOf(nodes: map<string, Node>, ids: seq<string>, groups: map<string, seq<string>>) {
    && (forall x :: x in ids ==> x in nodes)
    && (forall g :: g in groups <==> g != "" && Members(nodes, ids, g) != [])
    && (forall g :: g in groups ==> groups[g] == Members(nodes, ids, g))
  }

  lemma GroupsMore(nodes: map<string, Node>, ids: seq<string>, i: nat, groups: map<string, seq<string>>)
    requires i < |ids| && (forall x :: x in ids ==> x in nodes) && GroupsOf(nodes, ids[..i], groups)
    ensures var g := nodes[ids[i]].fusionGroup;
            GroupsOf(nodes, ids[..i + 1], if g == "" then groups
              else groups[g := (if g in groups then groups[g] else []) + [ids[i]]])
  {
    assert ids[..i + 1][..i] == ids[..i];
  }

  /** The nodes whose longest chain of dependencies has `n` edges. */
  ghost function Tier(es: seq<Edge>, vs: set<string>, n: nat): (r: set<string>) {
    set x | x in vs && LongestChain(es, x, n)
  }

  ghost predicate WaveOk(es: seq<Edge>, nodes: map<string, Node>, w: Wave, n: nat) {
    && w.level == n && w.nodes != [] && w.nodes == SortedKeys(Tier(es, nodes.Keys, n))
    && GroupsOf(nodes, w.nodes, w.groups)
  }

  /** Wave n is level n, in name order, with its fusion groups; no level is skipped and no node is left out. */
  ghost predicate CutInWaves(es: seq<Edge>, nodes: map<string, Node>, waves: seq<Wave>) {
    && (forall n :: 0 <= n < |waves| ==> WaveOk(es, nodes, waves[n], n))
    && (forall x :: x in nodes ==> exists n :: 0 <= n < |waves| && x in waves[n].nodes)
  }

  /** Waves partition the nodes, and every edge crosses to a later wave. */
  lemma WavesPartition(es: seq<Edge>, nodes: map<string, Node>, waves: seq<Wave>)
    requires CutInWaves(es, nodes, waves)
    ensures forall m, n, x :: 0 <= m < |waves| && 0 <= n < |waves| && x in waves[m].nodes && x in waves[n].nodes ==>
      m == n
    ensures forall n :: 0 <= n < |waves| ==> waves[n].nodes != [] && Distinct(waves[n].nodes)
    ensures forall i, m, n :: 0 <= i < |es| && 0 <= m < |waves| && 0 <= n < |waves| ==>
                                es[i].from in waves[m].nodes && es[i].to in waves[n].nodes ==> m < n
  {
    forall n | 0 <= n < |waves| ensures waves[n].nodes != [] && Distinct(waves[n].nodes) {
      assert WaveOk(es, nodes, waves[n], n);
    }
    forall m, n, x | 0 <= m < |waves| && 0 <= n < |waves| && x in waves[m].nodes && x in waves[n].nodes ensures m == n {
      InTier(es, nodes, waves, m, x);
      InTier(es, nodes, waves, n, x);
      ChainUnique(es, x, m, n);
    }
    forall i, m, n | 0 <= i < |es| && 0 <= m < |waves| && 0 <= n < |waves| && es[i].from in waves[m].nodes
      && es[i].to in waves[n].nodes
      ensures m < n
    {
      InTier(es, nodes, waves, m, es[i].from);
      InTier(es, nodes, waves, n, es[i].to);
      assert IsEdge(es, es[i].from, es[i].to);
      ChainGrows(es, es[i].from, es[i].to, m, n);
    }
  }

  lemma InTier(es: seq<Edge>, nodes: map<string, Node>, waves: seq<Wave>, n: nat, x: string)
    requires CutInWaves(es, nodes, waves) && n < |waves| && x in waves[n].nodes
    ensures LongestChain(es, x, n)
  {
    hide LongestChain, GroupsOf;
    assert WaveOk(es, nodes, waves[n], n);
    assert x in Tier(es, nodes.Keys, n);
  }

  lemma ChainUnique(es: seq<Edge>, x: string, m: nat, n: nat)
    requires LongestChain(es, x, m) && LongestChain(es, x, n)
    ensures m == n
  {
    hide Walk;
  }

  lemma ChainGrows(es: seq<Edge>, x: string, y: string, m: nat, n: nat)
    requires LongestChain(es, x, m) && LongestChain(es, y, n) && IsEdge(es, x, y)
    ensures m < n
  {
    hide Walk, IsEdge;
    var p :| |p| == m + 1 && Walk(es, p) && Last(p) == x;
    WalkOn(es, p, y);
    assert Last(p + [y]) == y;
  }

  lemma {:induction false} LevelsDense(es: seq<Edge>, levels: map<string, nat>, x: string, lv: nat)
    requires Ranks(es, levels) && x in levels && lv <= levels[x]
    requires forall y :: y in levels ==> LongestChain(es, y, levels[y])
    ensures exists y :: y in levels && levels[y] == lv
    decreases levels[x]
  {
    hide Ranks, LongestChain, IsEdge;
    if lv < levels[x] {
      LevelBelow(es, levels, x);
      var y :| y in levels && IsEdge(es, y, x) && levels[y] == levels[x] - 1;
      LevelsDense(es, levels, y, lv);
    }
  }

  /** A level up to the highest is empty only in the empty graph. */
  lemma LevelFilled(es: seq<Edge>, vs: set<string>, levels: map<string, nat>, maxLevel: nat, lv: nat, ids: seq<string>)
    requires Ranks(es, levels) && levels.Keys == vs && lv <= maxLevel
    requires forall y :: y in levels ==> LongestChain(es, y, levels[y])
    requires vs != {} ==> exists x :: x in levels && levels[x] == maxLevel
    requires multiset(ids) == multiset(AtLevel(levels, vs, lv))
    ensures ids == [] <==> vs == {}
  {
    hide Ranks, LongestChain;
    if vs != {} {
      var x :| x in levels && levels[x] == maxLevel;
      LevelsDense(es, levels, x, lv);
      var y :| y in levels && levels[y] == lv;
      assert y in multiset(AtLevel(levels, vs, lv));
    }
    if ids != [] {
      assert ids[0] in multiset(ids);
    }
  }

  lemma SortedSet(r: seq<string>, ks: set<string>)
    requires SortedBy(r, AtMost) && multiset(r) == multiset(ks)
    ensures r == SortedKeys(ks)
  {
    hide SortedBy, Less;
    forall x ensures x in r <==> x in ks { assert x in multiset(r) <==> x in multiset(ks); }
    assert Elems(r) == ks;
    assert |r| == |multiset(r)| == |multiset(ks)| == |ks|;
    SizeDistinct(r);
    StrictlySorted(r);
    SortedUnique(r, ks);
  }

  lemma StrictlySorted(r: seq<string>)
    requires SortedBy(r, AtMost) && Distinct(r)
    ensures Sorted(r)
  {
    forall i, j | 0 <= i < j < |r| ensures Less(r[i], r[j]) {
      LessTotal(r[i], r[j]);
      assert AtMost(r[i], r[j]);
    }
  }

  lemma WaveNodes(es: seq<Edge>, nodes: map<string, Node>, levels: map<string, nat>, lv: nat, ids: seq<string>)
    requires levels.Keys == nodes.Keys && forall y :: y in levels ==> LongestChain(es, y, levels[y])
    requires SortedBy(ids, AtMost) && multiset(ids) == multiset(AtLevel(levels, nodes.Keys, lv))
    ensures ids == SortedKeys(Tier(es, nodes.Keys, lv)) && forall x :: x in ids ==> x in nodes
  {
    hide LongestChain, SortedBy;
    SortedSet(ids, AtLevel(levels, nodes.Keys, lv));
    forall x | x in nodes ensures LongestChain(es, x, lv) <==> levels[x] == lv {
      if LongestChain(es, x, lv) {
        ChainUnique(es, x, lv, levels[x]);
      }
    }
    assert AtLevel(levels, nodes.Keys, lv) == Tier(es, nodes.Keys, lv);
  }

  lemma WaveMade(es: seq<Edge>, nodes: map<string, Node>, w: Wave, n: nat)
    requires w.level == n && w.nodes != [] && w.nodes == SortedKeys(Tier(es, nodes.Keys, n))
    requires GroupsOf(nodes, w.nodes, w.groups)
    ensures WaveOk(es, nodes, w, n)
  {
  }

  lemma WavesComplete(es: seq<Edge>, nodes: map<string, Node>, levels: map<string, nat>, maxLevel: nat,
                      waves: seq<Wave>)
    requires levels.Keys == nodes.Keys
    requires forall y :: y in levels ==> LongestChain(es, y, levels[y]) && levels[y] <= maxLevel
    requires nodes != map[] ==> |waves| == maxLevel + 1
    requires forall k :: 0 <= k < |waves| ==> WaveOk(es, nodes, waves[k], k)
    ensures CutInWaves(es, nodes, waves)
  {
    hide LongestChain, GroupsOf;
    forall x | x in nodes ensures exists n :: 0 <= n < |waves| && x in waves[n].nodes {
      var n := levels[x];
      assert nodes != map[];
      assert WaveOk(es, nodes, waves[n], n);
      assert x in Tier(es, nodes.Keys, n);
    }
  }

  // ---------------------------------------------------------------- scanning for the critical path

  predicate NotAfter(levels: map<string, nat>, a: string, b: string) {
    var la, lb := if a in levels then levels[a] else 0, if b in levels then levels[b] else 0;
    la < lb || (la == lb && AtMost(a, b))
  }

  lemma ByLevelOrder(levels: map<string, nat>)
    ensures IsOrder((a, b) => NotAfter(levels, a, b))
  {
    AtMostOrder();
  }

  lemma SameElements(a: seq<string>, b: seq<string>)
    requires multiset(a) == multiset(b) && Distinct(a)
    ensures Elems(a) == Elems(b) && Distinct(b) && (a == [] <==> b == [])
  {
    forall x ensures x in a <==> x in b { assert x in multiset(a) <==> x in multiset(b); }
    DistinctSize(a);
    assert |a| == |multiset(a)| == |multiset(b)| == |b|;
    SizeDistinct(b);
  }

  lemma {:induction false} SizeDistinct(s: seq<string>)
    ensures |Elems(s)| <= |s|
    ensures |Elems(s)| == |s| ==> Distinct(s)
  {
    if s != [] {
      var n := |s| - 1;
      SizeDistinct(s[..n]);
      ElemsLast(s);
      hide Elems;
      if |Elems(s)| == |s| {
        assert s[n] !in Elems(s[..n]);
        NotEarlier(s);
      }
    } else {
      assert Elems(s) == {};
    }
  }

  lemma ElemsLast(s: seq<string>)
    requires s != []
    ensures Elems(s) == Elems(s[..|s| - 1]) + {s[|s| - 1]}
  {
    assert forall x :: x in s <==> x in s[..|s| - 1] || x == s[|s| - 1];
  }

  lemma NotEarlier(s: seq<string>)
    requires s != [] && s[|s| - 1] !in Elems(s[..|s| - 1]) && Distinct(s[..|s| - 1])
    ensures Distinct(s)
  {
    forall i, j | 0 <= i < j < |s| ensures s[i] != s[j] {
      assert s[i] == s[..|s| - 1][i];
    }
  }

  /** In level order, no edge leads back to the node itself or an earlier one. */
  lemma NextInOrder(es: seq<Edge>, levels: map<string, nat>, ord: seq<string>, i: nat)
    requires Ranks(es, levels) && Distinct(ord) && Elems(ord) == levels.Keys
    requires SortedBy(ord, (a, b) => NotAfter(levels, a, b)) && i < |ord|
    ensures ord[i] in levels && ord[i] !in Elems(ord[..i]) && Elems(ord[..i + 1]) == Elems(ord[..i]) + {ord[i]}
    ensures forall y :: IsEdge(es, ord[i], y) ==> y !in Elems(ord[..i]) && y != ord[i]
  {
    assert ord[i] in Elems(ord);
    assert ord[..i + 1] == ord[..i] + [ord[i]];
    forall y | IsEdge(es, ord[i], y) ensures y !in Elems(ord[..i]) && y != ord[i] {
      assert forall k :: 0 <= k < i ==> NotAfter(levels, ord[k], ord[i]);
    }
  }

  function Inflow(incoming: map<string, real>, x: string): (r: real) {
    if x in incoming then incoming[x] else 0.0
  }

  /** The finished nodes have their final cost, and everything they feed knows its best arrival so far. */
  ghost predicate Scanned(es: seq<Edge>, cost: map<string, real>, done: set<string>,
                          incoming: map<string, real>, dist: map<string, real>, pred: map<string, string>) {
    && dist.Keys == done <= cost.Keys
    && (forall x :: x in done ==> dist[x] == Inflow(incoming, x) + cost[x])
    && (forall x :: Inflow(incoming, x) >= 0.0)
    && (forall i :: 0 <= i < |es| && es[i].from in done ==> Inflow(incoming, es[i].to) >= dist[es[i].from])
    && (forall x :: x in pred ==> pred[x] in done && IsEdge(es, pred[x], x) && Inflow(incoming, x) == dist[pred[x]])
    && (forall x :: x !in pred ==> Inflow(incoming, x) == 0.0)
  }

  /** The same while `id` feeds its successors one by one. */
  ghost predicate ScanMid(es: seq<Edge>, cost: map<string, real>, done: set<string>, id: string, fed: seq<string>,
                          incoming: map<string, real>, dist: map<string, real>, pred: map<string, string>) {
    && id !in done && dist.Keys == done + {id} <= cost.Keys
    && (forall x :: x in dist ==> dist[x] == Inflow(incoming, x) + cost[x])
    && (forall x :: Inflow(incoming, x) >= 0.0)
    && (forall i :: 0 <= i < |es| && es[i].from in done ==> Inflow(incoming, es[i].to) >= dist[es[i].from])
    && (forall y :: y in fed ==> Inflow(incoming, y) >= dist[id])
    && (forall x :: x in pred ==> pred[x] in dist && IsEdge(es, pred[x], x) && Inflow(incoming, x) == dist[pred[x]])
    && (forall x :: x !in pred ==> Inflow(incoming, x) == 0.0)
  }

  lemma ScanNone(es: seq<Edge>, cost: map<string, real>)
    ensures Scanned(es, cost, {}, map[], map[], map[])
  {
  }

  lemma ScanStart(es: seq<Edge>, cost: map<string, real>, done: set<string>, id: string, succ: seq<string>,
                  incoming: map<string, real>, dist: map<string, real>, pred: map<string, string>)
    requires id !in done && id in dist && id in cost && Scanned(es, cost, done, incoming, dist - {id}, pred)
    requires dist[id] == Inflow(incoming, id) + cost[id]
    ensures ScanMid(es, cost, done, id, succ[..0], incoming, dist, pred)
  {
    hide IsEdge;
    assert dist.Keys == (dist - {id}).Keys + {id};
  }

  lemma ScanStep(es: seq<Edge>, cost: map<string, real>, done: set<string>, id: string, succ: seq<string>, i: nat,
                 incoming: map<string, real>, dist: map<string, real>, pred: map<string, string>)
    requires i < |succ| && ScanMid(es, cost, done, id, succ[..i], incoming, dist, pred)
    requires IsEdge(es, id, succ[i]) && succ[i] !in done && succ[i] != id
    ensures id in dist
    ensures var to := succ[i]; var better := dist[id] > Inflow(incoming, to);
            ScanMid(es, cost, done, id, succ[..i + 1], if better then incoming[to := dist[id]] else incoming, dist,
                    if better then pred[to := id] else pred)
  {
    hide IsEdge;
    assert succ[..i + 1] == succ[..i] + [succ[i]];
  }

  lemma ScanEnd(es: seq<Edge>, cost: map<string, real>, done: set<string>, id: string, succ: seq<string>,
                incoming: map<string, real>, dist: map<string, real>, pred: map<string, string>)
    requires ScanMid(es, cost, done, id, succ, incoming, dist, pred) && succ == Succ(es, id)
    ensures Scanned(es, cost, done + {id}, incoming, dist, pred)
  {
    forall i | 0 <= i < |es| && es[i].from == id ensures es[i].to in succ {
      assert IsEdge(es, id, es[i].to);
      SuccEdge(es, id, es[i].to);
    }
    hide IsEdge, Succ;
  }

  ghost predicate Top(dist: map<string, real>, best: string)
    requires best in dist
  {
    forall x :: x in dist ==> dist[x] <= dist[best]
  }

  lemma TopMore(dist: map<string, real>, id: string, d: real, best: string)
    requires id !in dist
    ensures dist[id := d] - {id} == dist
    ensures dist == map[] ==> Top(dist[id := d], id)
    ensures best in dist && Top(dist, best) ==> Top(dist[id := d], if d > dist[best] then id else best)
  {
  }

  /** No directed path costs more than the best finished node. */
  lemma ScanBest(es: seq<Edge>, cost: map<string, real>, incoming: map<string, real>, dist: map<string, real>,
                 pred: map<string, string>, best: string)
    requires Scanned(es, cost, cost.Keys, incoming, dist, pred) && best in cost && best in dist && Top(dist, best)
    requires forall i :: 0 <= i < |es| ==> es[i].from in cost && es[i].to in cost
    ensures forall q :: Path(es, cost, q) ==> PathCost(cost, q) <= dist[best]
  {
    hide IsEdge;
    assert Arrivals(es, cost, dist);
    hide Scanned, Arrivals, Walk;
    forall q | Path(es, cost, q) ensures PathCost(cost, q) <= dist[best] {
      ArrivalBound(es, cost, dist, q);
    }
  }

  /** `path` leads from `id` to `best`, and what precedes `id` accounts for the rest of the cost. */
  ghost predicate Traced(es: seq<Edge>, cost: map<string, real>, dist: map<string, real>, best: string, id: string,
                         path: seq<string>) {
    && Path(es, cost, path) && path[0] == id && id in dist && best in dist
    && dist[id] + PathCost(cost, path[1..]) == dist[best]
  }

  lemma TraceStart(es: seq<Edge>, cost: map<string, real>, incoming: map<string, real>, dist: map<string, real>,
                   pred: map<string, string>, best: string)
    requires Scanned(es, cost, cost.Keys, incoming, dist, pred) && best in cost
    ensures Traced(es, cost, dist, best, best, [best])
  {
    assert [best][1..] == [];
  }

  lemma TraceStep(es: seq<Edge>, cost: map<string, real>, incoming: map<string, real>, dist: map<string, real>,
                  pred: map<string, string>,
                  level: map<string, nat>, best: string, id: string, path: seq<string>)
    requires Scanned(es, cost, cost.Keys, incoming, dist, pred) && Traced(es, cost, dist, best, id, path) && id in pred
    requires level.Keys == cost.Keys && Ranks(es, level)
    ensures pred[id] in cost && level[pred[id]] < level[id]
    ensures Traced(es, cost, dist, best, pred[id], [pred[id]] + path)
  {
    var p := pred[id];
    assert IsEdge(es, p, id) && p in dist && dist[id] == dist[p] + cost[id];
    assert level[p] < level[id];
    hide Scanned, Ranks;
    WalkBack(es, path, p);
    hide IsEdge, Walk;
    CostFront(cost, path);
    assert ([p] + path)[1..] == path;
  }

  lemma TraceEnd(es: seq<Edge>, cost: map<string, real>, incoming: map<string, real>, dist: map<string, real>,
                 pred: map<string, string>,
                 best: string, id: string, path: seq<string>)
    requires Scanned(es, cost, cost.Keys, incoming, dist, pred) && Traced(es, cost, dist, best, id, path) && id !in pred
    ensures Path(es, cost, path) && PathCost(cost, path) == dist[best]
  {
    hide IsEdge;
    CostFront(cost, path);
  }
}
