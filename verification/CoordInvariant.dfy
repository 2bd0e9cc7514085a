/**
 The coordinator's invariant and the facts about its folds.

 `Core(cfg, s, X)` relates queues, index, batches, items and callers. `X` names the items that are
 being torn down or moved in the middle of a handler; between events it is empty.
 */
module CoordInvariant {
  import opened Seqs
  import opened Wire
  import opened CoordModel

  // ---------------------------------------------------------------- totals

  datatype Measure = Weight | Bytes

  function SizeOf(m: Measure, it: Item): (n: nat) {
    match m case Weight => it.weight case Bytes => it.bytes
  }

  /** The total size of the items named by `ids`. */
  function Total(items: map<nat, Item>, m: Measure, ids: seq<nat>): (n: nat) {
    if ids == [] then 0
    else Total(items, m, ids[..|ids| - 1]) + if ids[|ids| - 1] in items then SizeOf(m, items[ids[|ids| - 1]]) else 0
  }

  ghost predicate SameSizes(items: map<nat, Item>, items': map<nat, Item>, ids: seq<nat>) {
    forall id :: id in ids ==>
                   (id in items <==> id in items')
                   && (id in items ==> items[id].weight == items'[id].weight && items[id].bytes == items'[id].bytes)
  }

  lemma {:induction false} TotalFrame(items: map<nat, Item>, items': map<nat, Item>, m: Measure, ids: seq<nat>)
    requires SameSizes(items, items', ids)
    ensures Total(items, m, ids) == Total(items', m, ids)
  {
    if ids != [] {
      assert ids[|ids| - 1] in ids;
      TotalFrame(items, items', m, ids[..|ids| - 1]);
    }
  }

  lemma {:induction false} TotalConcat(items: map<nat, Item>, m: Measure, a: seq<nat>, b: seq<nat>)
    ensures Total(items, m, a + b) == Total(items, m, a) + Total(items, m, b)
  {
    if b == [] {
      assert a + b == a;
    } else {
      var b' := b[..|b| - 1];
      assert (a + b)[..|a + b| - 1] == a + b';
      TotalConcat(items, m, a, b');
    }
  }

  lemma TotalAppend(items: map<nat, Item>, m: Measure, ids: seq<nat>, id: nat)
    ensures Total(items, m, ids + [id]) == Total(items, m, ids) + if id in items then SizeOf(m, items[id]) else 0
  {
    assert (ids + [id])[..|ids|] == ids;
  }

  lemma TotalRemove(items: map<nat, Item>, m: Measure, ids: seq<nat>, x: nat)
    requires Distinct(ids) && x in ids && x in items
    ensures Total(items, m, RemoveFirst(ids, x)) == Total(items, m, ids) - SizeOf(m, items[x])
  {
    hide Total, RemoveFirst;
    var i :| 0 <= i < |ids| && ids[i] == x;
    RemoveFirstAt(ids, x, i);
    TotalConcat(items, m, ids[..i], ids[i + 1..]);
    TotalAppend(items, m, ids[..i], x);
    TotalConcat(items, m, ids[..i] + [x], ids[i + 1..]);
    assert ids[..i] + [x] + ids[i + 1..] == ids;
  }

  lemma {:induction false} CountFrame(ws: map<nat, Waiter>, ws': map<nat, Waiter>, ids: seq<nat>)
    requires forall w :: w in ids ==> (w in ws && ws[w].active <==> w in ws' && ws'[w].active)
    ensures CountActive(ws, ids) == CountActive(ws', ids)
  {
    if ids != [] {
      assert ids[|ids| - 1] in ids;
      CountFrame(ws, ws', ids[..|ids| - 1]);
    }
  }

  lemma CountAppend(ws: map<nat, Waiter>, ids: seq<nat>, w: nat)
    ensures CountActive(ws, ids + [w]) == CountActive(ws, ids) + if w in ws && ws[w].active then 1 else 0
  {
    assert (ids + [w])[..|ids|] == ids;
  }

  lemma {:induction false} CountZero(ws: map<nat, Waiter>, ids: seq<nat>)
    ensures CountActive(ws, ids) == 0 <==> forall w :: w in ids && w in ws ==> !ws[w].active
    ensures CountActive(ws, ids) <= |ids|
  {
    if ids != [] {
      CountZero(ws, ids[..|ids| - 1]);
      assert ids[|ids| - 1] in ids;
      assert forall w :: w in ids <==> w in ids[..|ids| - 1] || w == ids[|ids| - 1];
    }
  }

  /** Switching one caller off lowers the count by one. */
  lemma {:induction false} CountSwitchOff(ws: map<nat, Waiter>, ws': map<nat, Waiter>, ids: seq<nat>, w: nat)
    requires Distinct(ids) && w in ids && w in ws && ws[w].active && w in ws' && !ws'[w].active
    requires forall v :: v in ids && v != w ==> (v in ws && ws[v].active <==> v in ws' && ws'[v].active)
    ensures CountActive(ws', ids) == CountActive(ws, ids) - 1
  {
    var ids' := ids[..|ids| - 1];
    if ids[|ids| - 1] == w {
      CountFrame(ws, ws', ids');
    } else {
      assert ids[|ids| - 1] in ids;
      CountSwitchOff(ws, ws', ids', w);
    }
  }

  lemma {:induction false} SumActiveFrame(items: map<nat, Item>, items': map<nat, Item>, ids: seq<nat>)
    requires forall id :: id in ids ==>
      id in items && id in items' && items[id].activeWaiters == items'[id].activeWaiters
    ensures SumActive(items, ids) == SumActive(items', ids)
  {
    if ids != [] {
      assert ids[|ids| - 1] in ids;
      SumActiveFrame(items, items', ids[..|ids| - 1]);
    }
  }

  lemma {:induction false} SumActiveLess(items: map<nat, Item>, items': map<nat, Item>, ids: seq<nat>, x: nat)
    requires Distinct(ids) && x in ids
    requires forall id :: id in ids ==> id in items && id in items'
    requires forall id :: id in ids && id != x ==> items[id].activeWaiters == items'[id].activeWaiters
    requires items'[x].activeWaiters == items[x].activeWaiters - 1
    ensures SumActive(items', ids) == SumActive(items, ids) - 1
  {
    var ids' := ids[..|ids| - 1];
    assert ids[|ids| - 1] in ids;
    if ids[|ids| - 1] == x {
      SumActiveFrame(items, items', ids');
    } else {
      SumActiveLess(items, items', ids', x);
    }
  }

  lemma {:induction false} SumActivePositive(items: map<nat, Item>, ids: seq<nat>)
    requires forall id :: id in ids ==> id in items && items[id].activeWaiters >= 0
    ensures SumActive(items, ids) >= 0
    ensures SumActive(items, ids) == 0 <==> forall id :: id in ids ==> items[id].activeWaiters == 0
  {
    if ids != [] {
      SumActivePositive(items, ids[..|ids| - 1]);
      assert ids[|ids| - 1] in ids;
      assert forall id :: id in ids <==> id in ids[..|ids| - 1] || id == ids[|ids| - 1];
    }
  }

  // ---------------------------------------------------------------- the invariant

  /** The ids of the live items of a partition. */
  ghost function LiveIds(items: map<nat, Item>, pk: string): set<nat> {
    set id | id in items && items[id].part == pk
  }

  /** The index lists exactly the live items of the partition, each once, under its own hash. */
  ghost predicate IndexOk(items: map<nat, Item>, pk: string, active: map<nat, seq<nat>>) {
    && (forall h :: h in active ==> active[h] != [] && Distinct(active[h]))
    && (forall h, id :: h in active && id in active[h] ==> id in items && items[id].part == pk && items[id].hash == h)
    && (forall id :: id in items && items[id].part == pk ==> items[id].hash in active && id in active[items[id].hash])
  }

  /** The queue limits bound what is pending, because the running totals never fall below it. */
  ghost predicate WithinLimits(cfg: Config, items: map<nat, Item>, p: Partition) {
    && Total(items, Bytes, p.pending) <= p.bytes
    && Total(items, Weight, p.pending) <= p.weight
    && (cfg.limits.maxItems > 0 ==> |p.pending| <= cfg.limits.maxItems)
    && (cfg.limits.maxBytes > 0 ==> p.bytes <= cfg.limits.maxBytes)
    && (cfg.limits.maxWeight > 0 ==> p.weight <= cfg.limits.maxWeight)
  }

  ghost predicate QueueOk(cfg: Config, s: State, pk: string)
    requires pk in s.partitions
  {
    var p := s.partitions[pk];
    && Distinct(p.pending)
    && (forall id :: id in p.pending ==> id in s.items && s.items[id].part == pk && !s.items[id].dispatched)
    && WithinLimits(cfg, s.items, p)
    && p.live == |LiveIds(s.items, pk)|
    && IndexOk(s.items, pk, p.active)
  }

  /** `w` is a caller admitted to this item: same partition, equal key. */
  ghost predicate CallerOf(cfg: Config, ws: map<nat, Waiter>, it: Item, w: nat) {
    && w in ws && ws[w].home == it.id && ws[w].admit == [Admitted]
    && ws[w].part == it.part && cfg.equal(it.key, ws[w].key)
  }

  /** The caller count is exact until the engine is cancelled, which leaves it stale but positive. */
  ghost predicate CountOk(s: State, it: Item) {
    && it.activeWaiters >= 0
    && (it.activeWaiters == CountActive(s.waiters, it.waiters)
        || (s.engineDone && CountActive(s.waiters, it.waiters) == 0))
  }

  /** An undispatched item is queued and wanted; a dispatched one is in its batch. */
  ghost predicate HeldOk(s: State, it: Item)
    requires it.part in s.partitions
  {
    && (!it.dispatched ==> it.id in s.partitions[it.part].pending && it.activeWaiters >= 1)
    && (it.dispatched ==> it.batchID in s.inflight && it.id in s.inflight[it.batchID].items)
    && CountOk(s, it)
  }

  ghost predicate ItemOk(cfg: Config, s: State, X: set<nat>, id: nat)
    requires id in s.items
  {
    var it := s.items[id];
    && it.id == id && 1 <= id <= s.requestSeq && 1 <= it.order <= s.submitSeq
    && it.part in s.partitions
    && it.hash == cfg.hash(it.key)
    && Distinct(it.waiters)
    && (forall w :: w in it.waiters ==> CallerOf(cfg, s.waiters, it, w))
    && (!cfg.dedup ==> |it.waiters| == 1)
    && (id !in X ==> HeldOk(s, it))
  }

  /** Without dedup, a batch counts its items that still have a caller and is cancelled with the last. */
  ghost predicate CancelExact(cfg: Config, s: State, b: Batch) {
    !cfg.dedup && !s.engineDone ==>
      b.activeWaiters == SumActive(s.items, b.items) && (b.cancelled <==> b.activeWaiters == 0)
  }

  ghost predicate BatchLimits(cfg: Config, items: map<nat, Item>, b: Batch) {
    && |b.items| <= cfg.maxBatchSize
    && (cfg.maxBatchWeight > 0 ==> Total(items, Weight, b.items) <= cfg.maxBatchWeight)
    && (cfg.maxBatchBytes > 0 ==> Total(items, Bytes, b.items) <= cfg.maxBatchBytes)
  }

  /** The least admission number of a batch is that of one of its items, as long as numbers fit 64 bits. */
  ghost predicate MinAttained(items: map<nat, Item>, b: Batch) {
    b.minSeq == MAX_UINT64 || exists id :: id in b.items && id in items && items[id].order == b.minSeq
  }

  ghost predicate BatchOk(cfg: Config, s: State, X: set<nat>, n: nat)
    requires n in s.inflight
  {
    var b := s.inflight[n];
    && 1 <= n <= s.batchSeq
    && b.items != [] && Distinct(b.items)
    && b.partition in s.partitions
    && (forall id :: id in b.items ==>
                       id in s.items && s.items[id].dispatched && s.items[id].batchID == n
                       && s.items[id].part == b.partition && b.minSeq <= s.items[id].order)
    && MinAttained(s.items, b)
    && BatchLimits(cfg, s.items, b)
    && ((forall id :: id in b.items ==> id !in X) ==> CancelExact(cfg, s, b))
  }

  /** A caller's channels: at most one admission reply and one result, and nothing after it left. */
  ghost predicate WaiterOk(s: State, w: nat)
    requires w in s.waiters
  {
    var c := s.waiters[w];
    && |c.admit| <= 1 && |c.ch| <= 1
    && (c.active ==> c.ch == [])
    && (c.admit != [Admitted] ==> c.active)
    && (c.admit == [Admitted] && c.active ==> c.home in s.items && w in s.items[c.home].waiters)
  }

  ghost predicate DedupOk(cfg: Config, items: map<nat, Item>) {
    cfg.dedup ==>
      forall i, j :: i in items && j in items && i != j && items[i].part == items[j].part ==>
                       !cfg.equal(items[i].key, items[j].key)
  }

  ghost predicate CountersOk(cfg: Config, s: State) {
    && s.activeProvider == |s.inflight| <= cfg.maxConcurrency
    && (s.dyn.Some? ==> 1 <= s.dyn.value.maxBatchSize <= cfg.maxBatchSize
                        && 1 <= s.dyn.value.maxConcurrency <= cfg.maxConcurrency)
    && (s.engineDone ==> s.closing)
  }

  ghost predicate ItemsOk(cfg: Config, s: State, X: set<nat>) {
    forall id :: id in s.items ==> ItemOk(cfg, s, X, id)
  }

  ghost predicate QueuesOk(cfg: Config, s: State) {
    forall pk :: pk in s.partitions ==> QueueOk(cfg, s, pk)
  }

  ghost predicate BatchesOk(cfg: Config, s: State, X: set<nat>) {
    forall n :: n in s.inflight ==> BatchOk(cfg, s, X, n)
  }

  ghost predicate WaitersOk(s: State) {
    forall w :: w in s.waiters ==> WaiterOk(s, w)
  }

  ghost predicate Core(cfg: Config, s: State, X: set<nat>) {
    && ItemsOk(cfg, s, X)
    && QueuesOk(cfg, s)
    && BatchesOk(cfg, s, X)
    && WaitersOk(s)
    && DedupOk(cfg, s.items)
    && CountersOk(cfg, s)
  }

  /** A parked submission still waits for its reply. */
  ghost predicate ParkedReq(cfg: Config, ws: map<nat, Waiter>, r: SubmitReq) {
    && r.waiter in ws && ws[r.waiter].admit == [] && r.hash == cfg.hash(r.key)
    && ws[r.waiter].part == r.part && ws[r.waiter].key == r.key
  }

  ghost predicate ParkedOk(cfg: Config, ws: map<nat, Waiter>, blocked: seq<SubmitReq>) {
    && (forall i :: 0 <= i < |blocked| ==> ParkedReq(cfg, ws, blocked[i]))
    && (forall i, j :: 0 <= i < j < |blocked| ==> blocked[i].waiter != blocked[j].waiter)
  }

  /** Nothing a barrier covers is still queued, nor, except for a flush, in flight. */
  ghost predicate Settled(items: map<nat, Item>, kind: ControlKind, upTo: nat) {
    forall id :: id in items && items[id].order <= upTo ==> kind == Flush && items[id].dispatched
  }

  ghost predicate SignalOk(s: State, id: nat)
    requires id in s.signals
  {
    var g := s.signals[id];
    && |g.sent| <= 1 && g.upTo <= s.submitSeq
    && (g.sent == [Done] ==> Settled(s.items, g.kind, g.upTo))
  }

  ghost predicate BarriersOk(s: State) {
    && (forall i :: 0 <= i < |s.barriers| ==>
                      s.barriers[i].id in s.signals
                      && s.signals[s.barriers[i].id] == Signal(s.barriers[i].kind, s.barriers[i].upTo, []))
    && (forall i, j :: 0 <= i < j < |s.barriers| ==> s.barriers[i].id != s.barriers[j].id)
    && (forall id :: id in s.signals ==> SignalOk(s, id))
  }

  ghost predicate Inv(cfg: Config, s: State) {
    Core(cfg, s, {}) && ParkedOk(cfg, s.waiters, s.blocked) && BarriersOk(s)
  }

  // ---------------------------------------------------------------- progress

  /** A condition on what may be delivered to a caller of a partition with a key. */
  type Law = (string, Key, Delivery) -> bool

  /** A law constrains answers only; runtime errors are always permitted. */
  ghost predicate LawOk(law: Law) {
    forall p, k, f :: law(p, k, Broken(f))
  }

  /** One caller moved forward: a result is sent at most once, lawfully, and never after it left. */
  ghost predicate Advances(law: Law, c: Waiter, d: Waiter) {
    && d.part == c.part && d.key == c.key && d.deadline == c.deadline
    && c.admit <= d.admit
    && (!c.active ==> !d.active && d.ch == c.ch)
    && (d.ch == c.ch || (|d.ch| == |c.ch| + 1 && d.ch[..|c.ch|] == c.ch && law(c.part, c.key, d.ch[|c.ch|])))
    && (c.active && d.active ==> d.ch == c.ch)
    && (c.ch != d.ch ==> !d.active)
  }

  /** A caller that was not there before: nothing in its channel, or one lawful result. */
  ghost predicate Newcomer(law: Law, d: Waiter) {
    && (d.active ==> d.ch == [])
    && |d.ch| <= 1
    && (d.ch != [] ==> law(d.part, d.key, d.ch[0]))
  }

  ghost predicate Evolves(law: Law, a: map<nat, Waiter>, b: map<nat, Waiter>) {
    && (forall w :: w in a ==> w in b && Advances(law, a[w], b[w]))
    && (forall w :: w in b && w !in a ==> Newcomer(law, b[w]))
  }

  /** What was asked for never changes, and a dispatched item stays in its batch. */
  ghost predicate Matures(it: Item, it': Item) {
    && it'.order == it.order && it'.part == it.part && it'.key == it.key
    && it'.weight == it.weight && it'.bytes == it.bytes
    && (it.dispatched ==> it'.dispatched && it'.batchID == it.batchID)
  }

  /** Items only leave, a dispatched item never returns to a queue, and new items are newly numbered. */
  ghost predicate Ages(s: State, s': State) {
    && s.submitSeq <= s'.submitSeq && s.requestSeq <= s'.requestSeq
    && forall id :: id in s'.items ==>
                      || (id in s.items && Matures(s.items[id], s'.items[id]))
                      || (id > s.requestSeq && s'.items[id].order > s.submitSeq)
  }

  /** Batches only leave, keep their items, and are newly numbered. */
  ghost predicate Flies(s: State, s': State) {
    && s.batchSeq <= s'.batchSeq
    && forall n :: n in s'.inflight ==>
                     n > s.batchSeq || (n in s.inflight && s'.inflight[n].items == s.inflight[n].items)
  }

  /** A barrier keeps its meaning, and is answered once. */
  ghost predicate SignalsGrow(s: State, s': State) {
    forall id :: id in s.signals ==>
                   && id in s'.signals
                   && s'.signals[id].kind == s.signals[id].kind && s'.signals[id].upTo == s.signals[id].upTo
                   && (s.signals[id].sent != [] ==> s'.signals[id].sent == s.signals[id].sent)
  }

  ghost predicate Progress(law: Law, s: State, s': State) {
    Evolves(law, s.waiters, s'.waiters) && Ages(s, s') && Flies(s, s') && SignalsGrow(s, s')
  }

  lemma EvolvesTrans(law: Law, a: map<nat, Waiter>, b: map<nat, Waiter>, c: map<nat, Waiter>)
    requires Evolves(law, a, b) && Evolves(law, b, c)
    ensures Evolves(law, a, c)
  {
    forall w | w in a ensures w in c && Advances(law, a[w], c[w]) {
      assert w in b && Advances(law, a[w], b[w]) && Advances(law, b[w], c[w]);
    }
    forall w | w in c && w !in a ensures Newcomer(law, c[w]) {
      if w in b {
        assert Newcomer(law, b[w]) && Advances(law, b[w], c[w]);
      }
    }
  }

  lemma ProgressTrans(law: Law, s: State, t: State, u: State)
    requires Progress(law, s, t) && Progress(law, t, u)
    ensures Progress(law, s, u)
  {
    EvolvesTrans(law, s.waiters, t.waiters, u.waiters);
  }

  lemma SettledAges(s: State, s': State, kind: ControlKind, upTo: nat)
    requires Ages(s, s') && Settled(s.items, kind, upTo) && upTo <= s.submitSeq
    ensures Settled(s'.items, kind, upTo)
  {
  }
}
