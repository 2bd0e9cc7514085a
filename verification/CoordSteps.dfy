/** Each elementary change of the coordinator's state keeps the invariant and moves callers forward. */
module CoordSteps {
  import opened Seqs
  import opened CoordModel
  import opened CoordInvariant

  // ---------------------------------------------------------------- frames

  ghost predicate SameButCallers(it: Item, it': Item) {
    it' == it.(waiters := it'.waiters, activeWaiters := it'.activeWaiters)
  }

  lemma SameQueue(cfg: Config, s: State, s': State, pk: string)
    requires pk in s.partitions && QueueOk(cfg, s, pk)
    requires pk in s'.partitions && s'.partitions[pk] == s.partitions[pk].(waiters := s'.partitions[pk].waiters)
    requires s'.items.Keys == s.items.Keys
    requires forall id :: id in s.items ==> SameButCallers(s.items[id], s'.items[id])
    ensures QueueOk(cfg, s', pk)
  {
    hide IndexOk, WithinLimits, LiveIds;
    SameIndex(s.items, s'.items, pk, s.partitions[pk].active);
    SameLimits(cfg, s.items, s'.items, s.partitions[pk], s'.partitions[pk]);
  }

  lemma SameIndex(items: map<nat, Item>, items': map<nat, Item>, pk: string, active: map<nat, seq<nat>>)
    requires items'.Keys == items.Keys && forall id :: id in items ==> SameButCallers(items[id], items'[id])
    ensures LiveIds(items', pk) == LiveIds(items, pk)
    ensures IndexOk(items, pk, active) ==> IndexOk(items', pk, active)
  {
  }

  lemma SameLimits(cfg: Config, items: map<nat, Item>, items': map<nat, Item>, p: Partition, p': Partition)
    requires items'.Keys == items.Keys && forall id :: id in items ==> SameButCallers(items[id], items'[id])
    requires WithinLimits(cfg, items, p) && p' == p.(waiters := p'.waiters)
    ensures WithinLimits(cfg, items', p')
  {
    hide Total;
    TotalFrame(items, items', Weight, p.pending);
    TotalFrame(items, items', Bytes, p.pending);
  }

  /** A batch is unaffected when its items keep their place, size and counts. */
  lemma SameBatch(cfg: Config, s: State, s': State, X: set<nat>, X': set<nat>, n: nat)
    requires n in s.inflight && BatchOk(cfg, s, X, n)
    requires n in s'.inflight && s'.inflight[n] == s.inflight[n]
    requires s.batchSeq <= s'.batchSeq && s'.engineDone == s.engineDone
    requires s.inflight[n].partition in s.partitions ==> s.inflight[n].partition in s'.partitions
    requires forall id :: id in s.inflight[n].items && id in s.items ==>
                            && id in s'.items && SameButCallers(s.items[id], s'.items[id])
                            && (id in X ==> id in X')
                            && (!cfg.dedup && id !in X' ==> s'.items[id].activeWaiters == s.items[id].activeWaiters)
    ensures BatchOk(cfg, s', X', n)
  {
    var b := s.inflight[n];
    TotalFrame(s.items, s'.items, Weight, b.items);
    TotalFrame(s.items, s'.items, Bytes, b.items);
    if !cfg.dedup && (forall id :: id in b.items ==> id !in X') {
      SumActiveFrame(s.items, s'.items, b.items);
    }
  }

  lemma Weaken(cfg: Config, s: State, X: set<nat>, Y: set<nat>)
    requires Core(cfg, s, X) && X <= Y
    ensures Core(cfg, s, Y)
  {
    hide QueueOk, BatchOk, WaiterOk, DedupOk, HeldOk;
    forall n | n in s.inflight ensures BatchOk(cfg, s, Y, n) {
      SameBatch(cfg, s, s, X, Y, n);
    }
  }

  // ---------------------------------------------------------------- delivery

  lemma {:induction false} DeliverAllAt(ws: map<nat, Waiter>, ids: seq<nat>, r: Delivery)
    ensures DeliverAll(ws, ids, r).Keys == ws.Keys
    ensures forall w :: w in ws ==>
                          DeliverAll(ws, ids, r)[w] ==
                          if w in ids && ws[w].active then ws[w].(active := false, ch := ws[w].ch + [r]) else ws[w]
  {
    if ids != [] {
      DeliverAllAt(ws, ids[..|ids| - 1], r);
      assert forall w :: w in ids <==> w in ids[..|ids| - 1] || w == ids[|ids| - 1];
    }
  }

  /** The callers of distinct items are distinct. */
  lemma CallersDisjoint(cfg: Config, s: State, X: set<nat>, i: nat, j: nat)
    requires i in s.items && j in s.items && i != j
    requires ItemOk(cfg, s, X, i) && ItemOk(cfg, s, X, j)
    ensures forall w :: w in s.items[i].waiters ==> w !in s.items[j].waiters
  {
    forall w | w in s.items[i].waiters ensures w !in s.items[j].waiters {
      assert CallerOf(cfg, s.waiters, s.items[i], w);
    }
  }

  lemma DeliverItem(cfg: Config, s: State, X: set<nat>, id: nat, r: Delivery, i: nat)
    requires id in s.items && id in X && i in s.items
    requires ItemOk(cfg, s, X, id) && ItemOk(cfg, s, X, i)
    ensures ItemOk(cfg, s.(waiters := DeliverAll(s.waiters, s.items[id].waiters, r)), X, i)
  {
    var ids := s.items[id].waiters;
    var s' := s.(waiters := DeliverAll(s.waiters, ids, r));
    DeliverAllAt(s.waiters, ids, r);
    forall w | w in s.items[i].waiters ensures CallerOf(cfg, s'.waiters, s.items[i], w) {
      assert CallerOf(cfg, s.waiters, s.items[i], w);
    }
    if i !in X {
      CallersDisjoint(cfg, s, X, i, id);
      CountFrame(s.waiters, s'.waiters, s.items[i].waiters);
    }
  }

  lemma DeliverWaiter(cfg: Config, s: State, X: set<nat>, id: nat, r: Delivery, w: nat)
    requires id in s.items && ItemOk(cfg, s, X, id)
    requires w in s.waiters && WaiterOk(s, w)
    ensures var s' := s.(waiters := DeliverAll(s.waiters, s.items[id].waiters, r));
            w in s'.waiters && WaiterOk(s', w)
  {
    DeliverAllAt(s.waiters, s.items[id].waiters, r);
    if w in s.items[id].waiters {
      assert CallerOf(cfg, s.waiters, s.items[id], w);
    }
  }

  lemma DeliverKeeps(cfg: Config, law: Law, s: State, X: set<nat>, id: nat, r: Delivery)
    requires Core(cfg, s, X) && id in s.items && id in X
    requires forall w :: w in s.items[id].waiters && w in s.waiters ==> law(s.waiters[w].part, s.waiters[w].key, r)
    ensures var s' := s.(waiters := DeliverAll(s.waiters, s.items[id].waiters, r));
            && Core(cfg, s', X)
            && Progress(law, s, s')
            && forall w :: w in s.items[id].waiters && w in s'.waiters ==> !s'.waiters[w].active
  {
    hide ItemOk, QueueOk, BatchOk, WaiterOk, DedupOk, Progress, DeliverAll;
    var ids := s.items[id].waiters;
    var s' := s.(waiters := DeliverAll(s.waiters, ids, r));
    DeliverProgress(law, s, id, r);
    DeliverAllAt(s.waiters, ids, r);
    forall i | i in s'.items ensures ItemOk(cfg, s', X, i) {
      DeliverItem(cfg, s, X, id, r, i);
    }
    forall pk | pk in s'.partitions ensures QueueOk(cfg, s', pk) {
      SameQueue(cfg, s, s', pk);
    }
    forall n | n in s'.inflight ensures BatchOk(cfg, s', X, n) {
      SameBatch(cfg, s, s', X, X, n);
    }
    forall w | w in s'.waiters ensures WaiterOk(s', w) {
      DeliverWaiter(cfg, s, X, id, r, w);
    }
  }

  lemma DeliverProgress(law: Law, s: State, id: nat, r: Delivery)
    requires id in s.items
    requires forall w :: w in s.items[id].waiters && w in s.waiters ==> law(s.waiters[w].part, s.waiters[w].key, r)
    ensures Progress(law, s, s.(waiters := DeliverAll(s.waiters, s.items[id].waiters, r)))
  {
    hide DeliverAll;
    DeliverAllAt(s.waiters, s.items[id].waiters, r);
  }

  // ---------------------------------------------------------------- teardown

  lemma RemoveActiveKeeps(items: map<nat, Item>, pk: string, active: map<nat, seq<nat>>, id: nat)
    requires IndexOk(items, pk, active) && id in items && items[id].part == pk
    ensures IndexOk(items - {id}, pk, RemoveActive(active, items[id].hash, id))
  {
    var h := items[id].hash;
    var bucket := RemoveFirst(active[h], id);
    RemoveFirstDistinct(active[h], id);
    var active' := RemoveActive(active, h, id);
    forall g, i | g in active' && i in active'[g]
      ensures i in items - {id} && items[i].part == pk && items[i].hash == g
    {
      assert g in active && i in active[g];
    }
    forall i | i in items - {id} && items[i].part == pk
      ensures items[i].hash in active' && i in active'[items[i].hash]
    {
      assert i in active[items[i].hash];
    }
  }

  lemma LiveRemove(items: map<nat, Item>, pk: string, id: nat)
    requires id in items
    ensures items[id].part == pk ==> |LiveIds(items - {id}, pk)| == |LiveIds(items, pk)| - 1
    ensures items[id].part != pk ==> LiveIds(items - {id}, pk) == LiveIds(items, pk)
  {
    assert LiveIds(items - {id}, pk) == LiveIds(items, pk) - {id};
  }

  /** The item is in no queue and no batch. */
  ghost predicate Loose(s: State, id: nat) {
    && id in s.items && s.items[id].part in s.partitions
    && id !in s.partitions[s.items[id].part].pending
    && (s.items[id].batchID in s.inflight ==> id !in s.inflight[s.items[id].batchID].items)
  }

  lemma DropItemOk(cfg: Config, s: State, X: set<nat>, id: nat, i: nat)
    requires Loose(s, id) && i in s.items && i != id && ItemOk(cfg, s, X, i)
    ensures ItemOk(cfg, DropItem(s, s.items[id].part, id), X - {id}, i)
  {
  }

  lemma OtherIndex(items: map<nat, Item>, pk: string, active: map<nat, seq<nat>>, id: nat)
    requires IndexOk(items, pk, active) && id in items && items[id].part != pk
    ensures IndexOk(items - {id}, pk, active)
  {
  }

  lemma DropIndex(s: State, id: nat, pk: string)
    requires Loose(s, id) && pk in s.partitions && IndexOk(s.items, pk, s.partitions[pk].active)
    ensures var s' := DropItem(s, s.items[id].part, id);
            pk in s'.partitions && IndexOk(s'.items, pk, s'.partitions[pk].active)
  {
    hide RemoveActive, IndexOk;
    if pk == s.items[id].part {
      RemoveActiveKeeps(s.items, pk, s.partitions[pk].active, id);
    } else {
      OtherIndex(s.items, pk, s.partitions[pk].active, id);
    }
  }

  lemma DropTotals(cfg: Config, s: State, id: nat, pk: string)
    requires Loose(s, id) && pk in s.partitions && QueueOk(cfg, s, pk)
    ensures var s' := DropItem(s, s.items[id].part, id);
            pk in s'.partitions && WithinLimits(cfg, s'.items, s'.partitions[pk])
  {
    hide RemoveActive, IndexOk, LiveIds, Total;
    var p := s.partitions[pk];
    var s' := DropItem(s, s.items[id].part, id);
    assert SameSizes(s.items, s'.items, p.pending);
    TotalFrame(s.items, s'.items, Weight, p.pending);
    TotalFrame(s.items, s'.items, Bytes, p.pending);
  }

  lemma DropQueue(cfg: Config, s: State, id: nat, pk: string)
    requires Loose(s, id) && pk in s.partitions && QueueOk(cfg, s, pk)
    ensures QueueOk(cfg, DropItem(s, s.items[id].part, id), pk)
  {
    hide RemoveActive, IndexOk, WithinLimits, LiveIds;
    DropIndex(s, id, pk);
    DropTotals(cfg, s, id, pk);
    LiveRemove(s.items, pk, id);
  }

  lemma DropBatch(cfg: Config, s: State, X: set<nat>, id: nat, n: nat)
    requires Loose(s, id) && n in s.inflight && BatchOk(cfg, s, X, n)
    ensures BatchOk(cfg, DropItem(s, s.items[id].part, id), X - {id}, n)
  {
    SameBatch(cfg, s, DropItem(s, s.items[id].part, id), X, X - {id}, n);
  }

  lemma DropKeeps(cfg: Config, law: Law, s: State, X: set<nat>, id: nat)
    requires Core(cfg, s, X) && Loose(s, id) && id in X
    requires forall w :: w in s.items[id].waiters && w in s.waiters ==> !s.waiters[w].active
    ensures var s' := DropItem(s, s.items[id].part, id);
            Core(cfg, s', X - {id}) && Progress(law, s, s')
  {
    hide ItemOk, QueueOk, BatchOk, WaiterOk, DropItem, Progress;
    var s' := DropItem(s, s.items[id].part, id);
    DropOutside(s, s.items[id].part, id);
    assert Elems([id]) == {id};
    DropProgress(law, s, id);
    forall i | i in s'.items ensures ItemOk(cfg, s', X - {id}, i) {
      DropItemOk(cfg, s, X, id, i);
    }
    forall pk | pk in s'.partitions ensures QueueOk(cfg, s', pk) {
      DropQueue(cfg, s, id, pk);
    }
    forall n | n in s'.inflight ensures BatchOk(cfg, s', X - {id}, n) {
      DropBatch(cfg, s, X, id, n);
    }
    forall w | w in s'.waiters ensures WaiterOk(s', w) {
      DropWaiter(s, id, w);
    }
  }

  lemma DropWaiter(s: State, id: nat, w: nat)
    requires Loose(s, id) && w in s.waiters && WaiterOk(s, w)
    requires w in s.items[id].waiters ==> !s.waiters[w].active
    ensures WaiterOk(DropItem(s, s.items[id].part, id), w)
  {
    hide DropItem;
    DropOutside(s, s.items[id].part, id);
  }

  lemma DropProgress(law: Law, s: State, id: nat)
    requires Loose(s, id)
    ensures Progress(law, s, DropItem(s, s.items[id].part, id))
  {
    hide DropItem;
    DropOutside(s, s.items[id].part, id);
  }

  /** What may be delivered to the callers of one item. */
  ghost predicate Deliverable(law: Law, s: State, id: nat, r: Option<Delivery>) {
    id in s.items &&
    forall w :: w in s.items[id].waiters && w in s.waiters ==>
                  if r.None? then !s.waiters[w].active else law(s.waiters[w].part, s.waiters[w].key, r.value)
  }

  /** Finishing a loose item: its callers get the result, the item is forgotten. */
  lemma FinishKeeps(cfg: Config, law: Law, s: State, X: set<nat>, id: nat, r: Option<Delivery>)
    requires Core(cfg, s, X) && Loose(s, id) && id in X && Deliverable(law, s, id, r)
    ensures var s' := FinishItem(s, s.items[id].part, id, r);
            Core(cfg, s', X - {id}) && Progress(law, s, s')
  {
    hide ItemsOk, QueuesOk, BatchesOk, WaitersOk, DedupOk, CountersOk, Evolves, Ages, Flies;
    if r.Some? {
      DeliverKeeps(cfg, law, s, X, id, r.value);
      var s1 := s.(waiters := DeliverAll(s.waiters, s.items[id].waiters, r.value));
      DropKeeps(cfg, law, s1, X, id);
      ProgressTrans(law, s, s1, FinishItem(s, s.items[id].part, id, r));
    } else {
      DropKeeps(cfg, law, s, X, id);
    }
  }

  /** `t` differs from `s` only in the items `ids`, their callers, and the index. */
  ghost predicate Outside(s: State, t: State, ids: seq<nat>) {
    && t.partitions.Keys == s.partitions.Keys
    && (forall q :: q in s.partitions ==> t.partitions[q].pending == s.partitions[q].pending)
    && t.items.Keys == s.items.Keys - Elems(ids)
    && (forall j :: j in t.items ==> t.items[j] == s.items[j])
    && t.waiters.Keys == s.waiters.Keys
    && (forall j, w :: j in t.items && w in t.items[j].waiters && w in s.waiters ==> t.waiters[w] == s.waiters[w])
    && t == s.(partitions := t.partitions, items := t.items, waiters := t.waiters)
  }

  lemma FinishOutside(cfg: Config, s: State, X: set<nat>, pk: string, id: nat, r: Option<Delivery>)
    requires ItemsOk(cfg, s, X) && id in s.items && s.items[id].part == pk && pk in s.partitions
    ensures Outside(s, FinishItem(s, pk, id, r), [id])
  {
    hide ItemOk, DropItem, DeliverAll;
    var s1 := if r.Some? then s.(waiters := DeliverAll(s.waiters, s.items[id].waiters, r.value)) else s;
    var t := FinishItem(s, pk, id, r);
    DropOutside(s1, pk, id);
    if r.Some? {
      DeliverAllAt(s.waiters, s.items[id].waiters, r.value);
      forall j, w | j in t.items && w in t.items[j].waiters && w in s.waiters
        ensures t.waiters[w] == s.waiters[w]
      {
        CallersDisjoint(cfg, s, X, j, id);
      }
    }
  }

  lemma DropOutside(s: State, pk: string, id: nat)
    requires id in s.items && pk in s.partitions
    ensures var t := DropItem(s, pk, id);
            && t == s.(partitions := t.partitions, items := t.items)
            && t.partitions.Keys == s.partitions.Keys && t.items.Keys == s.items.Keys - Elems([id])
            && (forall q :: q in s.partitions ==> t.partitions[q].pending == s.partitions[q].pending)
            && (forall j :: j in t.items ==> t.items[j] == s.items[j])
  {
    hide RemoveActive;
    assert Elems([id]) == {id};
  }

  lemma OutsideTrans(s: State, t: State, u: State, ids: seq<nat>, id: nat)
    requires Outside(s, t, ids) && Outside(t, u, [id])
    ensures Outside(s, u, ids + [id])
  {
    assert Elems(ids + [id]) == Elems(ids) + Elems([id]);
  }

  /** What a run of FinishItem may be applied to, and what it may deliver. */
  ghost predicate FinishReady(law: Law, s: State, pk: string, ids: seq<nat>, rs: seq<Option<Delivery>>)
    requires |ids| == |rs|
  {
    && pk in s.partitions
    && Distinct(ids)
    && (forall i :: 0 <= i < |ids| ==>
      Loose(s, ids[i]) && s.items[ids[i]].part == pk && Deliverable(law, s, ids[i], rs[i]))
  }

  lemma StillReady(law: Law, s: State, t: State, ids: seq<nat>, id: nat, r: Option<Delivery>)
    requires Outside(s, t, ids) && id !in ids && Loose(s, id) && Deliverable(law, s, id, r)
    ensures Loose(t, id) && t.items[id] == s.items[id] && Deliverable(law, t, id, r)
  {
    assert id !in Elems(ids);
  }

  lemma {:induction false} FinishAllKeeps(cfg: Config, law: Law, s: State, X: set<nat>, pk: string, ids: seq<nat>,
                                          rs: seq<Option<Delivery>>)
    requires |ids| == |rs|
    requires Core(cfg, s, X) && Elems(ids) <= X && FinishReady(law, s, pk, ids, rs)
    ensures var s' := FinishAll(s, pk, ids, rs);
            Core(cfg, s', X - Elems(ids)) && Progress(law, s, s') && Outside(s, s', ids)
  {
    hide ItemsOk, QueuesOk, BatchesOk, WaitersOk, DedupOk, CountersOk, Evolves, Ages, Flies, Outside, Loose,
      Deliverable;
    if ids == [] {
      assert X - Elems(ids) == X;
      NoChange(law, s);
    } else {
      var n := |ids| - 1;
      var id := ids[n];
      assert Elems(ids) == Elems(ids[..n]) + {id} by {
        assert forall x :: x in ids <==> x in ids[..n] || x == id;
      }
      FinishAllKeeps(cfg, law, s, X, pk, ids[..n], rs[..n]);
      var t := FinishAll(s, pk, ids[..n], rs[..n]);
      var Y := X - Elems(ids[..n]);
      assert id !in ids[..n];
      StillReady(law, s, t, ids[..n], id, rs[n]);
      FinishKeeps(cfg, law, t, Y, id, rs[n]);
      LooseHome(t, id);
      FinishOutside(cfg, t, Y, pk, id, rs[n]);
      var s' := FinishAll(s, pk, ids, rs);
      ProgressTrans(law, s, t, s');
      OutsideTrans(s, t, s', ids[..n], id);
      assert ids[..n] + [id] == ids;
      assert Y - {id} == X - Elems(ids);
    }
  }

  lemma LooseHome(s: State, id: nat)
    requires Loose(s, id)
    ensures id in s.items && s.items[id].part in s.partitions
  {
  }

  lemma NoChange(law: Law, s: State)
    ensures Progress(law, s, s) && Outside(s, s, [])
  {
  }

  // ---------------------------------------------------------------- queues and batches

  /** Shortening a queue: what leaves it is exempt, and the totals still cover what stays. */
  lemma RequeueKeeps(cfg: Config, s: State, X: set<nat>, pk: string, p: Partition)
    requires Core(cfg, s, X) && pk in s.partitions
    requires p.active == s.partitions[pk].active && p.live == s.partitions[pk].live
    requires Distinct(p.pending)
    requires forall id :: id in p.pending ==> id in s.partitions[pk].pending
    requires forall id :: id in s.partitions[pk].pending ==> id in p.pending || id in X
    requires WithinLimits(cfg, s.items, p)
    ensures Core(cfg, SetPartition(s, pk, p), X)
  {
    hide BatchOk, WaiterOk, QueueOk, ItemOk, WithinLimits, DedupOk;
    var s' := SetPartition(s, pk, p);
    forall i | i in s'.items ensures ItemOk(cfg, s', X, i) {
      RequeuedItem(cfg, s, X, pk, p, i);
    }
    forall q | q in s'.partitions ensures QueueOk(cfg, s', q) {
      if q == pk {
        RequeuedQueue(cfg, s, pk, p);
      } else {
        SameQueue(cfg, s, s', q);
      }
    }
    forall n | n in s'.inflight ensures BatchOk(cfg, s', X, n) {
      SameBatch(cfg, s, s', X, X, n);
    }
    forall w | w in s'.waiters ensures WaiterOk(s', w) {
      SameWaiter(s, s', w);
    }
  }

  lemma RequeuedItem(cfg: Config, s: State, X: set<nat>, pk: string, p: Partition, i: nat)
    requires i in s.items && ItemOk(cfg, s, X, i) && pk in s.partitions
    requires forall id :: id in s.partitions[pk].pending ==> id in p.pending || id in X
    ensures ItemOk(cfg, SetPartition(s, pk, p), X, i)
  {
    hide CallerOf;
  }

  lemma RequeuedQueue(cfg: Config, s: State, pk: string, p: Partition)
    requires pk in s.partitions && QueueOk(cfg, s, pk) && WithinLimits(cfg, s.items, p) && Distinct(p.pending)
    requires p.active == s.partitions[pk].active && p.live == s.partitions[pk].live
    requires forall id :: id in p.pending ==> id in s.partitions[pk].pending
    ensures QueueOk(cfg, SetPartition(s, pk, p), pk)
  {
    hide WithinLimits, IndexOk, LiveIds;
  }

  lemma SameWaiter(s: State, s': State, w: nat)
    requires w in s.waiters && WaiterOk(s, w)
    requires w in s'.waiters && s'.waiters[w] == s.waiters[w]
    requires s.waiters[w].home in s.items && w in s.items[s.waiters[w].home].waiters ==>
               s.waiters[w].home in s'.items && w in s'.items[s.waiters[w].home].waiters
    ensures WaiterOk(s', w)
  {
  }

  /** The state with one batch taken out of flight. */
  function Taken(s: State, n: nat): (s': State) {
    s.(inflight := s.inflight - {n}, activeProvider := s.activeProvider - 1)
  }

  lemma TakenItem(cfg: Config, s: State, n: nat, i: nat)
    requires n in s.inflight && i in s.items && ItemOk(cfg, s, {}, i)
    ensures ItemOk(cfg, Taken(s, n), Elems(s.inflight[n].items), i)
  {
  }

  lemma TakenLoose(cfg: Config, s: State, n: nat)
    requires n in s.inflight && BatchOk(cfg, s, {}, n) && QueuesOk(cfg, s)
    ensures Distinct(s.inflight[n].items) && s.inflight[n].partition in s.partitions
    ensures forall id :: id in s.inflight[n].items ==>
      Loose(Taken(s, n), id) && s.items[id].part == s.inflight[n].partition
  {
    hide QueueOk, CancelExact, BatchLimits;
    forall id | id in s.inflight[n].items ensures Loose(Taken(s, n), id) {
      DispatchedNotQueued(cfg, s, s.inflight[n].partition, id);
    }
  }

  /** Taking a batch out of flight makes its items exempt and loose. */
  lemma TakeBatchKeeps(cfg: Config, s: State, n: nat)
    requires Core(cfg, s, {}) && n in s.inflight
    ensures var s' := Taken(s, n);
            && Core(cfg, s', Elems(s.inflight[n].items))
            && s.inflight[n].partition in s'.partitions
            && Distinct(s.inflight[n].items)
            && forall id :: id in s.inflight[n].items ==>
               Loose(s', id) && id in s'.items && s'.items[id].part == s.inflight[n].partition
  {
    hide ItemOk, WaiterOk, QueueOk, BatchOk, DedupOk;
    var X := Elems(s.inflight[n].items);
    var s' := Taken(s, n);
    assert s'.inflight.Keys == s.inflight.Keys - {n};
    assert |s'.inflight| == |s.inflight| - 1;
    TakenLoose(cfg, s, n);
    forall i | i in s'.items ensures ItemOk(cfg, s', X, i) {
      TakenItem(cfg, s, n, i);
    }
    forall q | q in s'.partitions ensures QueueOk(cfg, s', q) {
      SameQueue(cfg, s, s', q);
    }
    forall m | m in s'.inflight ensures BatchOk(cfg, s', X, m) {
      SameBatch(cfg, s, s', {}, X, m);
    }
    forall w | w in s'.waiters ensures WaiterOk(s', w) {
      SameWaiter(s, s', w);
    }
  }

  lemma DispatchedNotQueued(cfg: Config, s: State, pk: string, id: nat)
    requires pk in s.partitions && QueueOk(cfg, s, pk)
    requires id in s.items && s.items[id].dispatched
    ensures id !in s.partitions[pk].pending
  {
  }

  lemma Idle(cfg: Config, s: State, pk: string)
    requires pk in s.partitions && QueueOk(cfg, s, pk) && s.partitions[pk].live == 0
    ensures forall id :: id in s.items ==> s.items[id].part != pk
  {
    assert LiveIds(s.items, pk) == {};
    forall id | id in s.items ensures s.items[id].part != pk {
      assert id !in LiveIds(s.items, pk);
    }
  }

  lemma BatchHasItem(cfg: Config, s: State, X: set<nat>, n: nat)
    requires n in s.inflight && BatchOk(cfg, s, X, n)
    ensures exists id :: id in s.items && s.items[id].part == s.inflight[n].partition
  {
    var id := s.inflight[n].items[0];
    assert id in s.inflight[n].items;
  }

  lemma RetireItem(cfg: Config, s: State, pk: string, i: nat)
    requires i in s.items && ItemOk(cfg, s, {}, i) && s.items[i].part != pk
    ensures ItemOk(cfg, s.(partitions := s.partitions - {pk}), {}, i)
  {
  }

  /** A partition is retired only when no item of it is live, so never under a batch in flight. */
  lemma RetireKeeps(cfg: Config, s: State, pk: string)
    requires Core(cfg, s, {})
    ensures Core(cfg, MaybeRetire(s, pk), {})
  {
    hide ItemOk, WaiterOk, QueueOk, BatchOk;
    var s' := MaybeRetire(s, pk);
    if s' != s {
      Idle(cfg, s, pk);
      forall i | i in s'.items ensures ItemOk(cfg, s', {}, i) {
        RetireItem(cfg, s, pk, i);
      }
      forall q | q in s'.partitions ensures QueueOk(cfg, s', q) {
        SameQueue(cfg, s, s', q);
      }
      forall m | m in s'.inflight ensures BatchOk(cfg, s', {}, m) {
        BatchHasItem(cfg, s, {}, m);
        SameBatch(cfg, s, s', {}, {}, m);
      }
      forall w | w in s'.waiters ensures WaiterOk(s', w) {
        SameWaiter(s, s', w);
      }
    }
  }

  lemma NewPartitionKeeps(cfg: Config, s: State, pk: string)
    requires Core(cfg, s, {}) && pk !in s.partitions
    ensures Core(cfg, SetPartition(s, pk, FRESH_PARTITION), {})
  {
    hide WaiterOk, ItemOk, BatchOk, QueueOk, DedupOk, FRESH_PARTITION;
    var s' := SetPartition(s, pk, FRESH_PARTITION);
    forall i | i in s'.items ensures ItemOk(cfg, s', {}, i) && s.items[i].part != pk {
      ItemElsewhere(cfg, s, pk, i);
    }
    forall q | q in s'.partitions ensures QueueOk(cfg, s', q) {
      if q == pk {
        FreshQueue(cfg, s', pk);
      } else {
        SameQueue(cfg, s, s', q);
      }
    }
    forall m | m in s'.inflight ensures BatchOk(cfg, s', {}, m) {
      SameBatch(cfg, s, s', {}, {}, m);
    }
    forall w | w in s'.waiters ensures WaiterOk(s', w) {
      SameWaiter(s, s', w);
    }
  }

  lemma ItemElsewhere(cfg: Config, s: State, pk: string, i: nat)
    requires i in s.items && ItemOk(cfg, s, {}, i) && pk !in s.partitions
    ensures ItemOk(cfg, SetPartition(s, pk, FRESH_PARTITION), {}, i) && s.items[i].part != pk
  {
    hide CallerOf;
  }

  lemma FreshQueue(cfg: Config, s: State, pk: string)
    requires pk in s.partitions && s.partitions[pk] == FRESH_PARTITION
    requires forall i :: i in s.items ==> s.items[i].part != pk
    ensures QueueOk(cfg, s, pk)
  {
    assert LiveIds(s.items, pk) == {};
  }
}
