/**
 Level-batched breadth-first traversal: each frontier is loaded with one call, and its children, in
 source order, form the next frontier. The traversal is specified level by level, and the levels are
 then shown to be the shortest distances in the graph that the loaded answers induce.
 */
module Traversal {
  import opened Seqs

  datatype CyclePolicy = CycleError | SkipSeen | ReturnMarker

  datatype ErrorPolicy = FailFast | CollectPerNode | PartialGraph

  datatype Limits = Limits(maxDepth: int, maxNodes: int, maxEdges: int, maxFrontier: int)

  function WithDefaults(l: Limits): (r: Limits) {
    Limits(if l.maxDepth <= 0 then 32 else l.maxDepth,
           if l.maxNodes <= 0 then 100000 else l.maxNodes,
           if l.maxEdges <= 0 then 1000000 else l.maxEdges,
           if l.maxFrontier <= 0 then 65536 else l.maxFrontier)
  }

  datatype NodeResult<K, V> = NodeResult(key: K, value: V, found: bool, err: Option<int>, depth: nat)

  datatype Load<K, V> = LoadFailed(err: int) | Loaded(nodes: seq<NodeResult<K, V>>)

  datatype Contract<!K, !V> = Contract(
    children: Option<(K, V) -> seq<K>>, terminal: Option<(K, V) -> bool>,
    limits: Limits, cycle: CyclePolicy, errors: ErrorPolicy, proofValid: bool)

  /**
   One traversal. The loader is foreign code: `load(d, keys)` is its reply to the call made at depth d,
   `ctxErr(d)` the state of the context just before it, and `zero` the zero value of V.
   */
  datatype Task<!K, !V> = Task(
    c: Contract<K, V>, roots: seq<K>, load: (nat, seq<K>) -> Load<K, V>, ctxErr: nat -> Option<int>, zero: V)

  datatype Diagnostic = ProofStale | LimitReached | UnsupportedCycle

  datatype Result<K, V> = Result(
    order: seq<NodeResult<K, V>>, frontierSizes: seq<nat>, depthReached: nat, nodes: nat, edges: nat,
    cycleMarkers: seq<K>, diagnostics: seq<Diagnostic>)

  datatype TraverseError =
    | StaleProof
    | NoChildren
    | Cancelled(err: int)
    | LimitExceeded
    | CycleDetected
    | LoadError(err: int)
    | NodeError(err: int)

  // ---------------------------------------------------------------- the levels

  /** The last loaded node with this key. */
  function LastFor<K(==), V>(rs: seq<NodeResult<K, V>>, k: K): (r: Option<NodeResult<K, V>>) {
    if rs == [] then None
    else if rs[|rs| - 1].key == k then Some(rs[|rs| - 1])
    else LastFor(rs[..|rs| - 1], k)
  }

  /** What the call at depth `d` says about `k`. */
  function Answer<K(==), V>(t: Task<K, V>, d: nat, keys: seq<K>, k: K): (r: NodeResult<K, V>) {
    var reply := t.load(d, keys);
    var found := if reply.Loaded? then LastFor(reply.nodes, k) else None;
    if found.Some? then found.value.(depth := d) else NodeResult(k, t.zero, false, None, d)
  }

  /** Place `j` holds the last loaded node with key `k`. */
  ghost predicate IsLast<K, V>(rs: seq<NodeResult<K, V>>, k: K, j: int) {
    0 <= j < |rs| && rs[j].key == k && forall i :: j < i < |rs| ==> rs[i].key != k
  }

  /** The node reported for `k` is what the loader said last of it in its reply, or missing if it said nothing. */
  ghost predicate AsLoaded<K, V>(t: Task<K, V>, d: nat, keys: seq<K>, k: K, nr: NodeResult<K, V>) {
    var reply := t.load(d, keys);
    && nr.key == k && nr.depth == d
    && (reply.Loaded? ==>
          && (forall j :: IsLast(reply.nodes, k, j) ==>
                            var n := reply.nodes[j]; nr.value == n.value && nr.found == n.found && nr.err == n.err)
          && ((forall j :: 0 <= j < |reply.nodes| ==> reply.nodes[j].key != k) ==>
                !nr.found && nr.err.None? && nr.value == t.zero))
  }

  /** The loader reported an error for `k`. */
  ghost predicate LoadedError<K, V>(t: Task<K, V>, d: nat, keys: seq<K>, k: K, err: int) {
    && var reply := t.load(d, keys);
    reply.Loaded? && exists j :: IsLast(reply.nodes, k, j) && reply.nodes[j].err == Some(err)
  }

  /** The node loaded for `a` was found, without error and not terminal, and its child number `x` is `b`. */
  ghost predicate Child<K, V>(t: Task<K, V>, d: nat, keys: seq<K>, a: K, x: int, b: K)
    requires t.c.children.Some?
  {
    && t.load(d, keys).Loaded?
    && exists j :: IsLast(t.load(d, keys).nodes, a, j) && Bears(t.c, t.load(d, keys).nodes[j], a, x, b)
  }

  ghost predicate Bears<K, V>(c: Contract<K, V>, n: NodeResult<K, V>, a: K, x: int, b: K)
    requires c.children.Some?
  {
    && n.found && n.err.None? && !(c.terminal.Some? && c.terminal.value(a, n.value))
    && 0 <= x < |c.children.value(a, n.value)| && c.children.value(a, n.value)[x] == b
  }

  /** The children a node contributes: none if it failed, is missing or is terminal. */
  function Expand<K, V>(c: Contract<K, V>, key: K, nr: NodeResult<K, V>): (r: seq<K>)
    requires c.children.Some?
  {
    if nr.err.Some? || !nr.found || (c.terminal.Some? && c.terminal.value(key, nr.value)) then []
    else c.children.value(key, nr.value)
  }

  function Kids<K(==), V>(t: Task<K, V>, d: nat, keys: seq<K>, ks: seq<K>): (r: seq<K>)
    requires t.c.children.Some?
  {
    if ks == [] then []
    else
      var k := ks[|ks| - 1];
      Kids(t, d, keys, ks[..|ks| - 1]) + Expand(t.c, k, Answer(t, d, keys, k))
  }

  /** The elements of `s` outside `seen`, each at its first occurrence. */
  function FirstNew<K(==)>(s: seq<K>, seen: set<K>): (r: seq<K>) {
    if s == [] then []
    else
      var r := FirstNew(s[..|s| - 1], seen);
      var x := s[|s| - 1];
      if x in seen || x in r then r else r + [x]
  }

  /** The elements of `s` inside `seen`, in order. */
  function Again<K(==)>(s: seq<K>, seen: set<K>): (r: seq<K>) {
    if s == [] then []
    else Again(s[..|s| - 1], seen) + if s[|s| - 1] in seen then [s[|s| - 1]] else []
  }

  ghost function Seen<K(!new)>(calls: seq<seq<K>>): (r: set<K>) {
    set d, k | 0 <= d < |calls| && k in calls[d] :: k
  }

  /** The frontier that follows the calls made so far. */
  ghost function NextLevel<K(!new), V>(t: Task<K, V>, calls: seq<seq<K>>): (r: seq<K>)
    requires t.c.children.Some?
  {
    if calls == [] then FirstNew(t.roots, {})
    else
      var d := |calls| - 1;
      FirstNew(Kids(t, d, calls[d], calls[d]), Seen(calls))
  }

  /** `calls` are the first frontiers, each loaded with one call. */
  ghost predicate Levels<K(!new), V>(t: Task<K, V>, calls: seq<seq<K>>)
    requires t.c.children.Some?
  {
    forall d :: 0 <= d < |calls| ==>
                  calls[d] != [] && calls[d] == NextLevel(t, calls[..d]) && t.load(d, calls[d]).Loaded?
  }

  function Row<K(==), V>(t: Task<K, V>, d: nat, keys: seq<K>, ks: seq<K>): (r: seq<NodeResult<K, V>>) {
    seq(|ks|, i requires 0 <= i < |ks| => Answer(t, d, keys, ks[i]))
  }

  /** The resolved nodes, level by level. */
  function OrderOf<K(==), V>(t: Task<K, V>, calls: seq<seq<K>>): (r: seq<NodeResult<K, V>>) {
    if calls == [] then []
    else
      var d := |calls| - 1;
      OrderOf(t, calls[..d]) + Row(t, d, calls[d], calls[d])
  }

  function EdgeCount<K(==), V>(t: Task<K, V>, calls: seq<seq<K>>): (r: nat)
    requires t.c.children.Some?
  {
    if calls == [] then 0
    else
      var d := |calls| - 1;
      EdgeCount(t, calls[..d]) + |Kids(t, d, calls[d], calls[d])|
  }

  /** The children met again, in traversal order. */
  ghost function Markers<K(!new), V>(t: Task<K, V>, calls: seq<seq<K>>): (r: seq<K>)
    requires t.c.children.Some?
  {
    if calls == [] then []
    else
      var d := |calls| - 1;
      Markers(t, calls[..d]) + Again(Kids(t, d, calls[d], calls[d]), Seen(calls))
  }

  function Sizes<K>(calls: seq<seq<K>>): (r: seq<nat>) {
    seq(|calls|, d requires 0 <= d < |calls| => |calls[d]|)
  }

  /** No child of a loaded level was seen before. */
  ghost predicate NoneAgain<K(!new), V>(t: Task<K, V>, calls: seq<seq<K>>)
    requires t.c.children.Some?
  {
    forall d :: 0 <= d < |calls| ==> Fresh(t, calls, d)
  }

  ghost predicate Fresh<K(!new), V>(t: Task<K, V>, calls: seq<seq<K>>, d: nat)
    requires t.c.children.Some? && d < |calls|
  {
    forall k :: k in Kids(t, d, calls[d], calls[d]) ==> k !in Seen(calls[..d + 1])
  }

  ghost predicate WithinLimits<K, V>(l: Limits, calls: seq<seq<K>>, res: Result<K, V>) {
    && (calls != [] ==> |calls| - 1 <= l.maxDepth)
    && (forall d :: 0 <= d < |calls| ==> |calls[d]| <= l.maxFrontier)
    && res.nodes <= l.maxNodes && res.edges <= l.maxEdges
  }

  /** What a result says after the given calls. */
  ghost predicate Reports<K(!new), V>(t: Task<K, V>, calls: seq<seq<K>>, res: Result<K, V>)
    requires t.c.children.Some?
  {
    && res.order == OrderOf(t, calls) && res.nodes == |res.order| && res.edges == EdgeCount(t, calls)
    && res.frontierSizes == Sizes(calls) && res.depthReached == (if calls == [] then 0 else |calls| - 1)
    && res.cycleMarkers == (if t.c.cycle == ReturnMarker then Markers(t, calls) else [])
    && res.diagnostics == []
    && (t.c.cycle == CycleError ==> NoneAgain(t, calls))
    && (t.c.errors == FailFast ==> forall i :: 0 <= i < |res.order| ==> res.order[i].err.None?)
    && WithinLimits(WithDefaults(t.c.limits), calls, res)
  }

  // ---------------------------------------------------------------- the traversal

  /** The unique keys in source order. */
  method DedupKeys<K(==)>(keys: seq<K>) returns (out: seq<K>, visited: set<K>)
    ensures out == FirstNew(keys, {}) && visited == Elems(out)
  {
    visited, out := {}, [];
    for i := 0 to |keys|
      invariant out == FirstNew(keys[..i], {}) && visited == Elems(out)
    {
      assert keys[..i + 1][..i] == keys[..i];
      if keys[i] !in visited {
        visited := visited + {keys[i]};
        out := out + [keys[i]];
      }
    }
    assert keys[..|keys|] == keys;
  }

  method IndexResults<K(==), V>(rs: seq<NodeResult<K, V>>) returns (m: map<K, NodeResult<K, V>>)
    ensures forall k :: k in m <==> LastFor(rs, k).Some?
    ensures forall k :: k in m ==> LastFor(rs, k) == Some(m[k])
  {
    m := map[];
    for i := 0 to |rs|
      invariant forall k :: k in m <==> LastFor(rs[..i], k).Some?
      invariant forall k :: k in m ==> LastFor(rs[..i], k) == Some(m[k])
    {
      assert rs[..i + 1][..i] == rs[..i];
      m := m[rs[i].key := rs[i]];
    }
    assert rs[..|rs|] == rs;
  }

  /** Follows the edges of one node, adding unseen children to the next frontier. */
  method FollowEdges<K(==), V>(c: Contract<K, V>, maxEdges: int, kids: seq<K>, visited: set<K>, res0: Result<K, V>,
                       next0: seq<K>, ghost before: seq<K>)
    returns (res: Result<K, V>, next: seq<K>, err: Option<TraverseError>)
    requires next0 == FirstNew(before, visited) && res0.edges <= maxEdges
    ensures err.None? ==> next == FirstNew(before + kids, visited) && res == Followed(c, res0, kids, visited)
    ensures err.None? ==> res.edges <= maxEdges && (c.cycle == CycleError ==> forall k :: k in kids ==> k !in visited)
    ensures err.Some? ==> res.order == res0.order && EdgeFault(c, maxEdges, res0.edges, kids, visited, err.value)
  {
    hide FirstNew, Again, Followed;
    res, next, err := res0, next0, None;
    var nextSeen := set k | k in next0;
    FollowNone(c, res0, kids, visited, before);
    for i := 0 to |kids|
      invariant next == FirstNew(before + kids[..i], visited) && nextSeen == Elems(next)
      invariant res == Followed(c, res0, kids[..i], visited) && res.edges <= maxEdges
      invariant c.cycle == CycleError ==> forall k :: k in kids[..i] ==> k !in visited
    {
      var child := kids[i];
      FollowStep(c, res0, kids, i, visited, before);
      res := res.(edges := res.edges + 1);
      if res.edges > maxEdges {
        return res.(diagnostics := res.diagnostics + [LimitReached]), next, Some(LimitExceeded);
      }
      if child in visited {
        match c.cycle
        case CycleError =>
          return res.(diagnostics := res.diagnostics + [UnsupportedCycle]), next, Some(CycleDetected);
        case ReturnMarker => res := res.(cycleMarkers := res.cycleMarkers + [child]);
        case SkipSeen =>
      } else if child !in nextSeen {
        nextSeen := nextSeen + {child};
        next := next + [child];
      }
    }
    assert kids[..|kids|] == kids;
  }

  function Followed<K(==), V>(c: Contract<K, V>, res: Result<K, V>, kids: seq<K>, visited: set<K>): (r: Result<K, V>) {
    res.(edges := res.edges + |kids|,
    cycleMarkers := res.cycleMarkers + if c.cycle == ReturnMarker then Again(kids, visited) else [])
  }

  ghost predicate EdgeFault<K, V>(c: Contract<K, V>, maxEdges: int, edges: int, kids: seq<K>, visited: set<K>,
                                  e: TraverseError) {
    || (e == LimitExceeded && edges + |kids| > maxEdges)
    || (e == CycleDetected && c.cycle == CycleError && exists k :: k in kids && k in visited)
  }

  lemma FollowNone<K, V>(c: Contract<K, V>, res: Result<K, V>, kids: seq<K>, visited: set<K>, before: seq<K>)
    ensures before + kids[..0] == before && Followed(c, res, kids[..0], visited) == res
  {
    assert kids[..0] == [];
  }

  lemma FollowStep<K, V>(c: Contract<K, V>, res: Result<K, V>, kids: seq<K>, i: nat, visited: set<K>, before: seq<K>)
    requires i < |kids|
    ensures kids[..i + 1] == kids[..i] + [kids[i]]
    ensures FirstNew(before + kids[..i + 1], visited) ==
            var r := FirstNew(before + kids[..i], visited);
            if kids[i] in visited || kids[i] in r then r else r + [kids[i]]
    ensures Followed(c, res, kids[..i], visited).edges == res.edges + i
    ensures Followed(c, res, kids[..i], visited).order == res.order
    ensures var was := Followed(c, res, kids[..i], visited);
            Followed(c, res, kids[..i + 1], visited) ==
            was.(edges := was.edges + 1,
            cycleMarkers := was.cycleMarkers + if c.cycle == ReturnMarker && kids[i] in visited then [kids[i]] else [])
  {
    assert (before + kids[..i + 1])[..|before| + i] == before + kids[..i];
    assert kids[..i + 1][..i] == kids[..i];
  }

  lemma {:induction false} AgainConcat<K>(a: seq<K>, b: seq<K>, seen: set<K>)
    ensures Again(a + b, seen) == Again(a, seen) + Again(b, seen)
  {
    if b == [] {
      assert a + b == a;
    } else {
      var n := |b| - 1;
      AgainConcat(a, b[..n], seen);
      assert (a + b)[..|a| + n] == a + b[..n];
    }
  }

  /** The result after the first `i` nodes of a frontier. */
  function Visited<K(==), V>(t: Task<K, V>, d: nat, frontier: seq<K>, ks: seq<K>, visited: set<K>,
                     res: Result<K, V>): (r: Result<K, V>)
    requires t.c.children.Some?
  {
    var kids := Kids(t, d, frontier, ks);
    Followed(t.c, res.(order := res.order + Row(t, d, frontier, ks), nodes := res.nodes + |ks|), kids, visited)
  }

  lemma VisitStep<K, V>(t: Task<K, V>, d: nat, frontier: seq<K>, i: nat, visited: set<K>, res: Result<K, V>)
    requires t.c.children.Some? && i < |frontier|
    ensures var k := frontier[i]; var nr := Answer(t, d, frontier, k); var kids := Expand(t.c, k, nr);
            && Kids(t, d, frontier, frontier[..i + 1]) == Kids(t, d, frontier, frontier[..i]) + kids
            && Row(t, d, frontier, frontier[..i + 1]) == Row(t, d, frontier, frontier[..i]) + [nr]
            && var was := Visited(t, d, frontier, frontier[..i], visited, res);
            Visited(t, d, frontier, frontier[..i + 1], visited, res) ==
            Followed(t.c, was.(order := was.order + [nr], nodes := was.nodes + 1), kids, visited)
  {
    var k := frontier[i];
    assert frontier[..i + 1][..i] == frontier[..i];
    AgainConcat(Kids(t, d, frontier, frontier[..i]), Expand(t.c, k, Answer(t, d, frontier, k)), visited);
  }

  lemma {:induction false} KidsPrefix<K, V>(t: Task<K, V>, d: nat, keys: seq<K>, ks: seq<K>, i: nat)
    requires t.c.children.Some? && i <= |ks|
    ensures Kids(t, d, keys, ks[..i]) <= Kids(t, d, keys, ks)
  {
    if i == |ks| {
      assert ks[..i] == ks;
    } else {
      KidsPrefix(t, d, keys, ks[..|ks| - 1], i);
      assert ks[..|ks| - 1][..i] == ks[..i];
    }
  }

  /** Why visiting a frontier stopped. */
  ghost predicate FrontierFault<K, V>(t: Task<K, V>, d: nat, frontier: seq<K>, visited: set<K>, res: Result<K, V>,
                                      e: TraverseError)
    requires t.c.children.Some?
  {
    var l := WithDefaults(t.c.limits);
    var kids := Kids(t, d, frontier, frontier);
    || (e == LimitExceeded && (res.nodes + |frontier| > l.maxNodes || res.edges + |kids| > l.maxEdges))
    || (e == CycleDetected && t.c.cycle == CycleError && exists k :: k in kids && k in visited)
    || (e.NodeError? && t.c.errors == FailFast && exists k :: k in frontier && LoadedError(t, d, frontier, k, e.err))
  }

  lemma EdgeToFrontier<K, V>(t: Task<K, V>, d: nat, frontier: seq<K>, i: nat, visited: set<K>, res: Result<K, V>,
                             e: TraverseError)
    requires t.c.children.Some? && i < |frontier|
    requires EdgeFault(t.c, WithDefaults(t.c.limits).maxEdges, res.edges + |Kids(t, d, frontier, frontier[..i])|,
                       Expand(t.c, frontier[i], Answer(t, d, frontier, frontier[i])), visited, e)
    ensures FrontierFault(t, d, frontier, visited, res, e)
  {
    VisitStep(t, d, frontier, i, visited, res);
    KidsPrefix(t, d, frontier, frontier, i + 1);
    if e == CycleDetected {
      var k :| k in Expand(t.c, frontier[i], Answer(t, d, frontier, frontier[i])) && k in visited;
      assert k in Kids(t, d, frontier, frontier[..i + 1]);
    }
  }

  /** Visits a loaded frontier in order. */
  method VisitFrontier<K(==), V>(t: Task<K, V>, d: nat, frontier: seq<K>, byKey: map<K, NodeResult<K, V>>,
                         visited: set<K>, res0: Result<K, V>)
    returns (res: Result<K, V>, next: seq<K>, err: Option<TraverseError>)
    requires t.c.children.Some? && t.load(d, frontier).Loaded?
    requires forall k :: k in byKey <==> LastFor(t.load(d, frontier).nodes, k).Some?
    requires forall k :: k in byKey ==> LastFor(t.load(d, frontier).nodes, k) == Some(byKey[k])
    requires res0.nodes <= WithDefaults(t.c.limits).maxNodes && res0.edges <= WithDefaults(t.c.limits).maxEdges
    ensures err.None? ==>
      res == Visited(t, d, frontier, frontier, visited, res0)
        && next == FirstNew(Kids(t, d, frontier, frontier), visited)
    ensures err.None? ==>
      res.nodes <= WithDefaults(t.c.limits).maxNodes && res.edges <= WithDefaults(t.c.limits).maxEdges
    ensures err.None? && t.c.cycle == CycleError ==> forall k :: k in Kids(t, d, frontier, frontier) ==> k !in visited
    ensures err.None? && t.c.errors == FailFast ==> forall i :: 0 <= i < |frontier| ==>
      Answer(t, d, frontier, frontier[i]).err.None?
    ensures err.None? && t.c.errors == FailFast ==> forall k, x :: k in frontier ==> !LoadedError(t, d, frontier, k, x)
    ensures err.Some? ==> FrontierFault(t, d, frontier, visited, res0, err.value)
    ensures res.order <= res0.order + Row(t, d, frontier, frontier)
  {
    hide Expand, Kids, FirstNew, Again, LastFor;
    res, next, err := res0, [], None;
    var limits := WithDefaults(t.c.limits);
    VisitNone(t, d, frontier, visited, res0);
    for i := 0 to |frontier|
      invariant res == Visited(t, d, frontier, frontier[..i], visited, res0)
      invariant next == FirstNew(Kids(t, d, frontier, frontier[..i]), visited)
      invariant res.nodes <= limits.maxNodes && res.edges <= limits.maxEdges && err.None?
      invariant t.c.cycle == CycleError ==> forall k :: k in Kids(t, d, frontier, frontier[..i]) ==> k !in visited
      invariant t.c.errors == FailFast ==> forall j :: 0 <= j < i ==> Answer(t, d, frontier, frontier[j]).err.None?
    {
      var key := frontier[i];
      VisitStep(t, d, frontier, i, visited, res0);
      var nr := NodeResult(key, t.zero, false, None, 0);
      if key in byKey {
        nr := byKey[key];
      }
      nr := nr.(depth := d);
      assert nr == Answer(t, d, frontier, key);
      RowPrefix(t, d, frontier, i + 1);
      res := res.(order := res.order + [nr], nodes := res.nodes + 1);
      if res.nodes > limits.maxNodes {
        return res.(diagnostics := res.diagnostics + [LimitReached]), next, Some(LimitExceeded);
      }
      if nr.err.Some? && t.c.errors == FailFast {
        AnswerLoaded(t, d, frontier, key);
        assert key in frontier && LoadedError(t, d, frontier, key, nr.err.value);
        assert FrontierFault(t, d, frontier, visited, res0, NodeError(nr.err.value));
        return res, next, Some(NodeError(nr.err.value));
      }
      ExpandCases(t.c, key, nr);
      var kids := [];
      if nr.err.None? && nr.found && !(t.c.terminal.Some? && t.c.terminal.value(key, nr.value)) {
        kids := t.c.children.value(key, nr.value);
      }
      res, next, err := FollowEdges(t.c, limits.maxEdges, kids, visited, res, next,
        Kids(t, d, frontier, frontier[..i]));
      if err.Some? {
        EdgeToFrontier(t, d, frontier, i, visited, res0, err.value);
        return;
      }
    }
    assert frontier[..|frontier|] == frontier;
    if t.c.errors == FailFast {
      NoLoadedError(t, d, frontier);
    }
  }

  lemma NoLoadedError<K, V>(t: Task<K, V>, d: nat, keys: seq<K>)
    requires forall i :: 0 <= i < |keys| ==> Answer(t, d, keys, keys[i]).err.None?
    ensures forall k, x :: k in keys ==> !LoadedError(t, d, keys, k, x)
  {
    hide Answer, IsLast;
    forall k, x | k in keys ensures !LoadedError(t, d, keys, k, x) {
      AnswerLoaded(t, d, keys, k);
    }
  }

  lemma ExpandCases<K, V>(c: Contract<K, V>, key: K, nr: NodeResult<K, V>)
    requires c.children.Some?
    ensures Expand(c, key, nr) ==
            if nr.err.None? && nr.found && !(c.terminal.Some? && c.terminal.value(key, nr.value))
              then c.children.value(key, nr.value) else []
  {
  }

  lemma VisitNone<K, V>(t: Task<K, V>, d: nat, frontier: seq<K>, visited: set<K>, res: Result<K, V>)
    requires t.c.children.Some?
    ensures Visited(t, d, frontier, frontier[..0], visited, res) == res
    ensures Kids(t, d, frontier, frontier[..0]) == [] && FirstNew([], visited) == []
  {
    assert frontier[..0] == [];
    assert res.order + Row(t, d, frontier, []) == res.order;
    assert res.cycleMarkers + [] == res.cycleMarkers;
  }

  lemma RowPrefix<K, V>(t: Task<K, V>, d: nat, frontier: seq<K>, i: nat)
    requires i <= |frontier|
    ensures Row(t, d, frontier, frontier[..i]) <= Row(t, d, frontier, frontier)
  {
  }

  /** Why a traversal stopped before its frontier was empty. */
  ghost predicate Stopped<K(!new), V>(t: Task<K, V>, calls: seq<seq<K>>, e: TraverseError)
    requires t.c.children.Some?
  {
    var l := WithDefaults(t.c.limits);
    var next := NextLevel(t, calls);
    match e
    case StaleProof => false
    case NoChildren => false
    case Cancelled(x) => next != [] && t.ctxErr(|calls|) == Some(x)
    case LoadError(x) => next != [] && t.load(|calls|, next) == LoadFailed(x)
    case LimitExceeded =>
      || (next != [] && (|calls| > l.maxDepth || |next| > l.maxFrontier))
      || |OrderOf(t, calls)| > l.maxNodes || EdgeCount(t, calls) > l.maxEdges
    case CycleDetected => t.c.cycle == CycleError && !NoneAgain(t, calls)
    case NodeError(x) =>
      && t.c.errors == FailFast
      && exists d, k :: 0 <= d < |calls| && k in calls[d] && LoadedError(t, d, calls[d], k, x)
  }

  /**
   The traversal. It succeeds only with every reachable level loaded, once each, and reports exactly
   those; when it stops early, the calls made are still the first levels and the reason is real.
   */
  method Traverse<K(==, !new), V>(t: Task<K, V>) returns (res: Result<K, V>, err: Option<TraverseError>,
                    ghost calls: seq<seq<K>>)
    ensures err == Some(StaleProof) <==> !t.c.proofValid
    ensures err == Some(NoChildren) <==> t.c.proofValid && t.c.children.None?
    ensures t.c.proofValid && t.c.children.Some? ==> Levels(t, calls) && res.order <= OrderOf(t, calls)
    ensures err.None? ==> t.c.children.Some? && NextLevel(t, calls) == [] && Reports(t, calls, res)
    ensures err.Some? && t.c.proofValid && t.c.children.Some? ==> Stopped(t, calls, err.value)
  {
    hide NextLevel, Levels, Reports, NoneAgain, OrderOf, EdgeCount, LastFor, Row, Kids, FirstNew;
    res, err, calls := Result([], [], 0, 0, 0, [], []), None, [];
    if !t.c.proofValid {
      return res.(diagnostics := [ProofStale]), Some(StaleProof), calls;
    }
    if t.c.children.None? {
      return res, Some(NoChildren), calls;
    }
    var limits := WithDefaults(t.c.limits);
    var frontier, visited := DedupKeys(t.roots);
    StartLevels(t, res);
    var depth := 0;
    while |frontier| > 0
      invariant depth == |calls| <= limits.maxDepth + 1 && frontier == NextLevel(t, calls) && Levels(t, calls)
      invariant visited == Seen(calls) + Elems(frontier)
      invariant Reports(t, calls, res) && err.None?
      decreases limits.maxDepth + 1 - depth
    {
      ReportsOrder(t, calls, res);
      var e := t.ctxErr(depth);
      if e.Some? {
        return res, Some(Cancelled(e.value)), calls;
      }
      if depth > limits.maxDepth {
        return res.(diagnostics := [LimitReached]), Some(LimitExceeded), calls;
      }
      if |frontier| > limits.maxFrontier {
        return res.(diagnostics := [LimitReached]), Some(LimitExceeded), calls;
      }
      ghost var was := res;
      res := res.(frontierSizes := res.frontierSizes + [|frontier|], depthReached := depth);
      var reply := t.load(depth, frontier);
      if reply.LoadFailed? {
        return res, Some(LoadError(reply.err)), calls;
      }
      var byKey := IndexResults(reply.nodes);
      ghost var calls' := calls + [frontier];
      LevelMore(t, calls, frontier);
      assert visited == Seen(calls');
      var next;
      ghost var res1 := res;
      res, next, err := VisitFrontier(t, depth, frontier, byKey, visited, res);
      if err.Some? {
        FaultStops(t, calls, frontier, visited, was, err.value);
        calls := calls';
        return;
      }
      ReportMore(t, calls, frontier, visited, was, res);
      var nextSeen := set k | k in next;
      visited := visited + nextSeen;
      calls := calls';
      frontier := next;
      depth := depth + 1;
    }
    ReportsOrder(t, calls, res);
  }

  lemma StartLevels<K(!new), V>(t: Task<K, V>, res: Result<K, V>)
    requires t.c.children.Some? && res == Result([], [], 0, 0, 0, [], [])
    ensures Levels(t, []) && NextLevel(t, []) == FirstNew(t.roots, {}) && Seen<K>([]) == {} && Reports(t, [], res)
  {
    assert Sizes<K>([]) == [];
  }

  lemma ReportsOrder<K(!new), V>(t: Task<K, V>, calls: seq<seq<K>>, res: Result<K, V>)
    requires t.c.children.Some? && Reports(t, calls, res)
    ensures res.order == OrderOf(t, calls) && res.nodes == |res.order| && res.edges == EdgeCount(t, calls)
    ensures res.nodes <= WithDefaults(t.c.limits).maxNodes && res.edges <= WithDefaults(t.c.limits).maxEdges
    ensures res.frontierSizes == Sizes(calls) && res.diagnostics == []
  {
  }

  lemma LevelMore<K(!new), V>(t: Task<K, V>, calls: seq<seq<K>>, frontier: seq<K>)
    requires t.c.children.Some? && Levels(t, calls) && frontier == NextLevel(t, calls) != []
    requires t.load(|calls|, frontier).Loaded?
    ensures var calls' := calls + [frontier];
            && Levels(t, calls') && Seen(calls') == Seen(calls) + Elems(frontier)
            && OrderOf(t, calls') == OrderOf(t, calls) + Row(t, |calls|, frontier, frontier)
            && EdgeCount(t, calls') == EdgeCount(t, calls) + |Kids(t, |calls|, frontier, frontier)|
            && NextLevel(t, calls') == FirstNew(Kids(t, |calls|, frontier, frontier), Seen(calls'))
  {
    hide Levels, NextLevel, FirstNew, Kids, Row, Seen;
    LevelsMore(t, calls, frontier);
    SeenMore(calls, frontier);
    assert (calls + [frontier])[..|calls|] == calls;
    NextIs(t, calls + [frontier]);
  }

  lemma NextIs<K(!new), V>(t: Task<K, V>, calls: seq<seq<K>>)
    requires t.c.children.Some? && calls != []
    ensures var d := |calls| - 1; NextLevel(t, calls) == FirstNew(Kids(t, d, calls[d], calls[d]), Seen(calls))
  {
    hide FirstNew, Kids, Seen;
  }

  lemma LevelsMore<K(!new), V>(t: Task<K, V>, calls: seq<seq<K>>, frontier: seq<K>)
    requires t.c.children.Some? && Levels(t, calls) && frontier == NextLevel(t, calls) != []
    requires t.load(|calls|, frontier).Loaded?
    ensures Levels(t, calls + [frontier])
  {
    hide NextLevel;
    var calls' := calls + [frontier];
    assert calls'[..|calls|] == calls;
    forall d | 0 <= d < |calls'| ensures calls'[d] != [] && calls'[d] == NextLevel(t, calls'[..d])
      && t.load(d, calls'[d]).Loaded? {
      assert d < |calls| ==> calls'[..d] == calls[..d];
    }
  }

  lemma SeenMore<K(!new)>(calls: seq<seq<K>>, frontier: seq<K>)
    ensures Seen(calls + [frontier]) == Seen(calls) + Elems(frontier)
  {
    var calls' := calls + [frontier];
    forall k | k in Seen(calls) + Elems(frontier) ensures k in Seen(calls') {
      if k in Elems(frontier) {
        assert k in calls'[|calls|];
      } else {
        var d :| 0 <= d < |calls| && k in calls[d];
        assert k in calls'[d];
      }
    }
    forall k | k in Seen(calls') ensures k in Seen(calls) + Elems(frontier) {
      var d :| 0 <= d < |calls'| && k in calls'[d];
      assert d < |calls| ==> k in calls[d];
    }
  }

  lemma FaultStops<K(!new), V>(t: Task<K, V>, calls: seq<seq<K>>, frontier: seq<K>, visited: set<K>, was: Result<K, V>,
                     e: TraverseError)
    requires t.c.children.Some? && Levels(t, calls) && frontier == NextLevel(t, calls) != []
    requires t.load(|calls|, frontier).Loaded?
    requires Reports(t, calls, was) && visited == Seen(calls + [frontier])
    requires FrontierFault(t, |calls|, frontier, visited, was, e)
    ensures Stopped(t, calls + [frontier], e)
  {
    hide FirstNew, Kids, Levels, WithinLimits, Markers;
    LevelMore(t, calls, frontier);
    var calls' := calls + [frontier];
    assert calls'[..|calls| + 1] == calls';
    if e.NodeError? {
      var k :| k in frontier && LoadedError(t, |calls|, frontier, k, e.err);
      assert 0 <= |calls| < |calls'| && k in calls'[|calls|] && LoadedError(t, |calls|, calls'[|calls|], k, e.err);
    } else if e == CycleDetected {
      var k :| k in Kids(t, |calls|, frontier, frontier) && k in visited;
      assert !Fresh(t, calls', |calls|);
    }
  }

  lemma ReportMore<K(!new), V>(t: Task<K, V>, calls: seq<seq<K>>, frontier: seq<K>, visited: set<K>, was: Result<K, V>,
                     res: Result<K, V>)
    requires t.c.children.Some? && Levels(t, calls) && frontier == NextLevel(t, calls) != []
    requires t.load(|calls|, frontier).Loaded?
    requires Reports(t, calls, was) && visited == Seen(calls + [frontier])
    requires |calls| <= WithDefaults(t.c.limits).maxDepth && |frontier| <= WithDefaults(t.c.limits).maxFrontier
    requires res == Visited(t, |calls|, frontier, frontier, visited,
      was.(frontierSizes := was.frontierSizes + [|frontier|], depthReached := |calls|))
    requires res.nodes <= WithDefaults(t.c.limits).maxNodes && res.edges <= WithDefaults(t.c.limits).maxEdges
    requires t.c.cycle == CycleError ==> forall k :: k in Kids(t, |calls|, frontier, frontier) ==> k !in visited
    requires t.c.errors == FailFast ==> forall i :: 0 <= i < |frontier| ==>
      Answer(t, |calls|, frontier, frontier[i]).err.None?
    ensures Reports(t, calls + [frontier], res)
  {
    hide FirstNew, Kids, Levels, Again, NextLevel, Answer, Seen, WithDefaults, NoneAgain;
    LevelMore(t, calls, frontier);
    var calls' := calls + [frontier];
    assert calls'[..|calls|] == calls;
    assert Sizes(calls') == Sizes(calls) + [|frontier|];
    if t.c.cycle == CycleError {
      NoneMore(t, calls, frontier);
    }
  }

  lemma NoneMore<K(!new), V>(t: Task<K, V>, calls: seq<seq<K>>, frontier: seq<K>)
    requires t.c.children.Some? && NoneAgain(t, calls)
    requires forall k :: k in Kids(t, |calls|, frontier, frontier) ==> k !in Seen(calls + [frontier])
    ensures NoneAgain(t, calls + [frontier])
  {
    hide Kids, Seen, Fresh;
    var calls' := calls + [frontier];
    forall d | 0 <= d < |calls'| ensures Fresh(t, calls', d) {
      FreshMore(t, calls, frontier, d);
    }
  }

  lemma FreshMore<K(!new), V>(t: Task<K, V>, calls: seq<seq<K>>, frontier: seq<K>, d: nat)
    requires t.c.children.Some? && d <= |calls|
    requires if d < |calls| then Fresh(t, calls, d) else forall k :: k in Kids(t, d, frontier, frontier) ==>
      k !in Seen(calls + [frontier])
    ensures Fresh(t, calls + [frontier], d)
  {
    hide Kids, Seen;
    var calls' := calls + [frontier];
    assert calls'[..d + 1] == if d < |calls| then calls[..d + 1] else calls';
  }

  // ---------------------------------------------------------------- what the levels mean

  /** `b` is a child of the node loaded for `a`. */
  ghost predicate Arc<K(!new), V>(t: Task<K, V>, calls: seq<seq<K>>, a: K, b: K)
    requires t.c.children.Some?
  {
    exists d, x :: 0 <= d < |calls| && a in calls[d] && Child(t, d, calls[d], a, x, b)
  }

  lemma {:induction false} LastForIs<K, V>(rs: seq<NodeResult<K, V>>, k: K)
    ensures LastFor(rs, k).None? <==> forall i :: 0 <= i < |rs| ==> rs[i].key != k
    ensures LastFor(rs, k).Some? ==> exists j :: IsLast(rs, k, j)
    ensures forall j :: IsLast(rs, k, j) ==> LastFor(rs, k) == Some(rs[j])
  {
    if rs != [] {
      var n := |rs| - 1;
      LastForIs(rs[..n], k);
      assert forall i :: 0 <= i < n ==> rs[..n][i] == rs[i];
      if rs[n].key == k {
        assert IsLast(rs, k, n);
      } else {
        assert forall j :: IsLast(rs, k, j) <==> IsLast(rs[..n], k, j);
      }
    }
  }

  /** The code's answer is what was loaded, and expands to the children of what was loaded. */
  lemma AnswerLoaded<K, V>(t: Task<K, V>, d: nat, keys: seq<K>, k: K)
    ensures var nr := Answer(t, d, keys, k);
            && AsLoaded(t, d, keys, k, nr)
            && (nr.found || nr.err.Some? ==>
                  t.load(d, keys).Loaded? && exists j :: IsLast(t.load(d, keys).nodes, k, j))
  {
    hide LastFor;
    var reply := t.load(d, keys);
    if reply.Loaded? {
      LastForIs(reply.nodes, k);
    }
  }

  lemma ExpandIs<K, V>(t: Task<K, V>, d: nat, keys: seq<K>, a: K, x: int, b: K)
    requires t.c.children.Some?
    ensures var kids := Expand(t.c, a, Answer(t, d, keys, a));
            0 <= x < |kids| && kids[x] == b <==> Child(t, d, keys, a, x, b)
  {
    hide Answer, IsLast;
    AnswerLoaded(t, d, keys, a);
  }

  lemma ExpandHas<K, V>(t: Task<K, V>, d: nat, keys: seq<K>, a: K, b: K)
    requires t.c.children.Some?
    ensures b in Expand(t.c, a, Answer(t, d, keys, a)) <==> exists x :: Child(t, d, keys, a, x, b)
  {
    hide Answer, Child, Expand;
    var kids := Expand(t.c, a, Answer(t, d, keys, a));
    forall x: int ensures 0 <= x < |kids| && kids[x] == b <==> Child(t, d, keys, a, x, b) {
      ExpandIs(t, d, keys, a, x, b);
    }
  }

  lemma ArcIs<K(!new), V>(t: Task<K, V>, calls: seq<seq<K>>, a: K, b: K)
    requires t.c.children.Some?
    ensures Arc(t, calls, a, b) <==>
            exists d :: 0 <= d < |calls| && a in calls[d] && b in Expand(t.c, a, Answer(t, d, calls[d], a))
  {
    hide Answer, Child, Expand;
    forall d | 0 <= d < |calls| && a in calls[d]
      ensures b in Expand(t.c, a, Answer(t, d, calls[d], a)) <==> exists x :: Child(t, d, calls[d], a, x, b)
    {
      ExpandHas(t, d, calls[d], a, b);
    }
  }

  /** A path from a root along loaded answers. */
  ghost predicate Trail<K(!new), V>(t: Task<K, V>, calls: seq<seq<K>>, p: seq<K>)
    requires t.c.children.Some?
  {
    p != [] && p[0] in t.roots && forall i :: 0 <= i < |p| - 1 ==> Arc(t, calls, p[i], p[i + 1])
  }

  /** `n` edges is the length of a shortest path from a root to `k`. */
  ghost predicate Distance<K(!new), V>(t: Task<K, V>, calls: seq<seq<K>>, k: K, n: nat)
    requires t.c.children.Some?
  {
    && (exists p :: |p| == n + 1 && Trail(t, calls, p) && p[n] == k)
    && (forall p :: Trail(t, calls, p) && p[|p| - 1] == k ==> |p| >= n + 1)
  }

  lemma {:induction false} FirstNewIs<K(!new)>(s: seq<K>, seen: set<K>)
    ensures Distinct(FirstNew(s, seen))
    ensures forall k :: k in FirstNew(s, seen) <==> k in s && k !in seen
  {
    if s != [] {
      var n := |s| - 1;
      FirstNewIs(s[..n], seen);
      assert forall k :: k in s <==> k in s[..n] || k == s[n];
    }
  }

  lemma {:induction false} KidsAre<K, V>(t: Task<K, V>, d: nat, keys: seq<K>, ks: seq<K>, b: K)
    requires t.c.children.Some?
    ensures b in Kids(t, d, keys, ks) <==> exists a :: a in ks && b in Expand(t.c, a, Answer(t, d, keys, a))
  {
    hide Expand, Answer;
    if ks != [] {
      var n := |ks| - 1;
      KidsAre(t, d, keys, ks[..n], b);
      assert forall k :: k in ks <==> k in ks[..n] || k == ks[n];
    }
  }

  /** What a level holds: the new children of the level before it, or the roots. */
  lemma LevelIs<K(!new), V>(t: Task<K, V>, calls: seq<seq<K>>, d: nat)
    requires t.c.children.Some? && Levels(t, calls) && d < |calls|
    ensures Distinct(calls[d])
    ensures forall k :: k in calls[d] ==> k !in Seen(calls[..d])
    ensures d == 0 ==> forall k :: k in calls[d] <==> k in t.roots
    ensures d > 0 ==> forall k :: k in calls[d] <==>
      k in Kids(t, d - 1, calls[d - 1], calls[d - 1]) && k !in Seen(calls[..d])
  {
    hide Kids, FirstNew;
    assert calls[d] == NextLevel(t, calls[..d]);
    if d == 0 {
      assert Seen(calls[..0]) == {};
      FirstNewIs(t.roots, {});
    } else {
      assert calls[..d][d - 1] == calls[d - 1];
      FirstNewIs(Kids(t, d - 1, calls[d - 1], calls[d - 1]), Seen(calls[..d]));
    }
  }

  lemma EarlierSeen<K(!new)>(calls: seq<seq<K>>, d: nat, e: nat, k: K)
    requires d < e < |calls| && k in calls[d]
    ensures k in Seen(calls[..e])
  {
    assert calls[..e][d] == calls[d];
  }

  /** No key is loaded twice. */
  lemma LoadedOnce<K(!new), V>(t: Task<K, V>, calls: seq<seq<K>>, d: nat, e: nat, k: K)
    requires t.c.children.Some? && Levels(t, calls) && d < |calls| && e < |calls| && k in calls[d] && k in calls[e]
    ensures d == e && Distinct(calls[d])
  {
    hide Levels, Seen, Kids;
    if d < e {
      EarlierSeen(calls, d, e, k);
    } else if e < d {
      EarlierSeen(calls, e, d, k);
    }
    LevelIs(t, calls, d);
    LevelIs(t, calls, e);
  }

  lemma {:induction false} TrailTo<K(!new), V>(t: Task<K, V>, calls: seq<seq<K>>, d: nat, k: K) returns (p: seq<K>)
    requires t.c.children.Some? && Levels(t, calls) && d < |calls| && k in calls[d]
    ensures |p| == d + 1 && p[d] == k && Trail(t, calls, p)
  {
    hide Levels, Trail, Arc;
    if d == 0 {
      p := RootTrail(t, calls, k);
    } else {
      var a := Parent(t, calls, d, k);
      var q := TrailTo(t, calls, d - 1, a);
      TrailOn(t, calls, q, k);
      p := q + [k];
    }
  }

  lemma RootTrail<K(!new), V>(t: Task<K, V>, calls: seq<seq<K>>, k: K) returns (p: seq<K>)
    requires t.c.children.Some? && Levels(t, calls) && calls != [] && k in calls[0]
    ensures |p| == 1 && p[0] == k && Trail(t, calls, p)
  {
    LevelIs(t, calls, 0);
    p := [k];
  }

  lemma Parent<K(!new), V>(t: Task<K, V>, calls: seq<seq<K>>, d: nat, k: K) returns (a: K)
    requires t.c.children.Some? && Levels(t, calls) && 0 < d < |calls| && k in calls[d]
    ensures a in calls[d - 1] && Arc(t, calls, a, k)
  {
    LevelIs(t, calls, d);
    hide Levels, Expand, Answer, Kids, Seen;
    KidsAre(t, d - 1, calls[d - 1], calls[d - 1], k);
    hide Arc;
    a :| a in calls[d - 1] && k in Expand(t.c, a, Answer(t, d - 1, calls[d - 1], a));
    ArcIs(t, calls, a, k);
  }

  lemma TrailOn<K(!new), V>(t: Task<K, V>, calls: seq<seq<K>>, q: seq<K>, k: K)
    requires t.c.children.Some? && Trail(t, calls, q) && Arc(t, calls, q[|q| - 1], k)
    ensures Trail(t, calls, q + [k])
  {
    hide Arc;
    var p := q + [k];
    forall i | 0 <= i < |p| - 1 ensures Arc(t, calls, p[i], p[i + 1]) {
      if i < |q| - 1 {
        assert p[i] == q[i] && p[i + 1] == q[i + 1];
      }
    }
  }

  /** An arc leads at most one level down, and never out of the loaded keys. */
  lemma ArcLevel<K(!new), V>(t: Task<K, V>, calls: seq<seq<K>>, a: K, b: K, d: nat) returns (e: nat)
    requires t.c.children.Some? && Levels(t, calls) && NextLevel(t, calls) == []
    requires d < |calls| && a in calls[d] && Arc(t, calls, a, b)
    ensures e < |calls| && e <= d + 1 && b in calls[e]
  {
    hide Expand, Answer, Kids, NextLevel, Levels, Arc;
    ArcIs(t, calls, a, b);
    var c :| 0 <= c < |calls| && a in calls[c] && b in Expand(t.c, a, Answer(t, c, calls[c], a));
    LoadedOnce(t, calls, c, d, a);
    KidsAre(t, d, calls[d], calls[d], b);
    if b in Seen(calls[..d + 1]) {
      e :| 0 <= e < d + 1 && b in calls[..d + 1][e];
    } else {
      BelongsNext(t, calls, d, b);
      e := d + 1;
    }
  }

  lemma BelongsNext<K(!new), V>(t: Task<K, V>, calls: seq<seq<K>>, d: nat, b: K)
    requires t.c.children.Some? && Levels(t, calls) && NextLevel(t, calls) == [] && d < |calls|
    requires b in Kids(t, d, calls[d], calls[d]) && b !in Seen(calls[..d + 1])
    ensures d + 1 < |calls| && b in calls[d + 1]
  {
    if d + 1 < |calls| {
      LevelIs(t, calls, d + 1);
    } else {
      assert calls[..d + 1] == calls;
      FirstNewIs(Kids(t, d, calls[d], calls[d]), Seen(calls));
      assert false;
    }
  }

  lemma RootLevel<K(!new), V>(t: Task<K, V>, calls: seq<seq<K>>, k: K)
    requires t.c.children.Some? && Levels(t, calls) && NextLevel(t, calls) == [] && k in t.roots
    ensures calls != [] && k in calls[0]
  {
    if calls == [] {
      FirstNewIs(t.roots, {});
      assert false;
    } else {
      LevelIs(t, calls, 0);
    }
  }

  lemma {:induction false} TrailLevel<K(!new), V>(t: Task<K, V>, calls: seq<seq<K>>, p: seq<K>) returns (e: nat)
    requires t.c.children.Some? && Levels(t, calls) && NextLevel(t, calls) == [] && Trail(t, calls, p)
    ensures e < |calls| && e < |p| && p[|p| - 1] in calls[e]
    decreases |p|
  {
    hide Levels, NextLevel, Arc;
    var n := |p| - 1;
    if n == 0 {
      RootLevel(t, calls, p[0]);
      e := 0;
    } else {
      var q := p[..n];
      forall i | 0 <= i < |q| - 1 ensures Arc(t, calls, q[i], q[i + 1]) {
        assert q[i] == p[i] && q[i + 1] == p[i + 1];
      }
      var d := TrailLevel(t, calls, q);
      assert Arc(t, calls, p[n - 1], p[n - 1 + 1]);
      e := ArcLevel(t, calls, p[n - 1], p[n], d);
    }
  }

  /**
   After a successful traversal, the key of a node at depth d is at distance d from the roots along
   the loaded answers, and every key so reachable was loaded.
   */
  lemma DepthIsDistance<K(!new), V>(t: Task<K, V>, calls: seq<seq<K>>, k: K, d: nat)
    requires t.c.children.Some? && Levels(t, calls) && NextLevel(t, calls) == []
    ensures d < |calls| && k in calls[d] <==> Distance(t, calls, k, d)
  {
    hide Levels, NextLevel, Arc;
    if d < |calls| && k in calls[d] {
      var p := TrailTo(t, calls, d, k);
      forall q | Trail(t, calls, q) && q[|q| - 1] == k ensures |q| >= d + 1 {
        var e := TrailLevel(t, calls, q);
        LoadedOnce(t, calls, d, e, k);
      }
    }
    if Distance(t, calls, k, d) {
      var p :| |p| == d + 1 && Trail(t, calls, p) && p[d] == k;
      var e := TrailLevel(t, calls, p);
      var q := TrailTo(t, calls, e, k);
    }
  }

  /** A reported node is a loaded key, and says what the loader said last of that key in its own level's call. */
  lemma {:induction false} OrderLevel<K(!new), V>(t: Task<K, V>, calls: seq<seq<K>>, i: nat)
    requires i < |OrderOf(t, calls)|
    ensures var nr := OrderOf(t, calls)[i];
            && nr.depth < |calls| && nr.key in calls[nr.depth] && AsLoaded(t, nr.depth, calls[nr.depth], nr.key, nr)
  {
    hide Answer;
    var d := |calls| - 1;
    var was := OrderOf(t, calls[..d]);
    if i < |was| {
      OrderLevel(t, calls[..d], i);
    } else {
      AnswerLoaded(t, d, calls[d], calls[d][i - |was|]);
    }
  }

  lemma {:induction false} OrderHolds<K(!new), V>(t: Task<K, V>, calls: seq<seq<K>>, d: nat, k: K) returns (i: nat)
    requires d < |calls| && k in calls[d]
    ensures i < |OrderOf(t, calls)| && OrderOf(t, calls)[i].key == k
    decreases |calls|
  {
    hide Answer;
    var n := |calls| - 1;
    var was := OrderOf(t, calls[..n]);
    if d < n {
      i := OrderHolds(t, calls[..n], d, k);
    } else {
      var j :| 0 <= j < |calls[n]| && calls[n][j] == k;
      AnswerLoaded(t, n, calls[n], k);
      i := |was| + j;
      assert OrderOf(t, calls)[i] == Row(t, n, calls[n], calls[n])[j];
    }
  }

  /** No key is reported twice. */
  lemma {:induction false} OrderOnce<K(!new), V>(t: Task<K, V>, calls: seq<seq<K>>, i: nat, j: nat)
    requires t.c.children.Some? && Levels(t, calls) && i < j < |OrderOf(t, calls)|
    ensures OrderOf(t, calls)[i].key != OrderOf(t, calls)[j].key
  {
    hide Answer, NextLevel;
    var n := |calls| - 1;
    var was := OrderOf(t, calls[..n]);
    if j < |was| {
      assert forall d :: 0 <= d < n ==> calls[..n][..d] == calls[..d];
      OrderOnce(t, calls[..n], i, j);
    } else {
      var k := calls[n][j - |was|];
      AnswerLoaded(t, n, calls[n], k);
      LoadedOnce(t, calls, n, n, k);
      if i < |was| {
        OrderLevel(t, calls[..n], i);
        if was[i].key == k {
          LoadedOnce(t, calls, was[i].depth, n, k);
        }
      } else {
        AnswerLoaded(t, n, calls[n], calls[n][i - |was|]);
      }
    }
  }

  /** A successful traversal reports exactly the keys reachable from the roots along loaded answers. */
  lemma ReportsReachable<K(!new), V>(t: Task<K, V>, calls: seq<seq<K>>, k: K)
    requires t.c.children.Some? && Levels(t, calls) && NextLevel(t, calls) == []
    ensures (exists i :: 0 <= i < |OrderOf(t, calls)| && OrderOf(t, calls)[i].key == k)
       <==> (exists p :: Trail(t, calls, p) && p[|p| - 1] == k)
  {
    hide Levels, NextLevel, Arc, OrderOf, Answer;
    if i :| 0 <= i < |OrderOf(t, calls)| && OrderOf(t, calls)[i].key == k {
      OrderLevel(t, calls, i);
      var p := TrailTo(t, calls, OrderOf(t, calls)[i].depth, k);
      assert p[|p| - 1] == k;
    }
    if p :| Trail(t, calls, p) && p[|p| - 1] == k {
      var e := TrailLevel(t, calls, p);
      var i := OrderHolds(t, calls, e, k);
    }
  }

  /** Without a repeated child, every edge leads exactly one level down. */
  lemma CycleFreeLevels<K(!new), V>(t: Task<K, V>, calls: seq<seq<K>>, a: K, b: K, d: nat)
    requires t.c.children.Some? && Levels(t, calls) && NextLevel(t, calls) == [] && NoneAgain(t, calls)
    requires d < |calls| && a in calls[d] && Arc(t, calls, a, b)
    ensures d + 1 < |calls| && b in calls[d + 1]
  {
    hide Expand, Answer, Kids, NextLevel, Levels, Arc;
    ArcIs(t, calls, a, b);
    var c :| 0 <= c < |calls| && a in calls[c] && b in Expand(t.c, a, Answer(t, c, calls[c], a));
    LoadedOnce(t, calls, c, d, a);
    KidsAre(t, d, calls[d], calls[d], b);
    assert Fresh(t, calls, d);
    BelongsNext(t, calls, d, b);
  }
}
