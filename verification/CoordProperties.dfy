/** What the invariant says of every reachable state, and of every dispatch from one. */
module CoordProperties {
  import opened Seqs
  import opened Wire
  import opened CoordModel
  import opened CoordInvariant
  import opened CoordSteps
  import opened CoordDispatch
  import opened CoordTheorems

  // ---------------------------------------------------------------- the index

  /** The ids in flight for a partition. */
  ghost function FlyingIds(s: State, pk: string): set<nat> {
    set n, id | n in s.inflight && s.inflight[n].partition == pk && id in s.inflight[n].items :: id
  }

  ghost predicate InIndex(p: Partition, id: nat) {
    exists h :: h in p.active && id in p.active[h]
  }

  lemma IndexedIsLive(cfg: Config, s: State, pk: string, id: nat)
    requires pk in s.partitions && QueueOk(cfg, s, pk)
    ensures InIndex(s.partitions[pk], id) <==> id in LiveIds(s.items, pk)
  {
    if id in LiveIds(s.items, pk) {
      assert s.items[id].hash in s.partitions[pk].active;
    }
  }

  lemma LiveSplit(cfg: Config, s: State, pk: string)
    requires Core(cfg, s, {}) && pk in s.partitions
    ensures LiveIds(s.items, pk) == Elems(s.partitions[pk].pending) + FlyingIds(s, pk)
    ensures Elems(s.partitions[pk].pending) !! FlyingIds(s, pk)
  {
    hide WaitersOk, DedupOk, CountersOk, IndexOk, WithinLimits, CallerOf, CountOk, CancelExact, BatchLimits;
    var p := s.partitions[pk];
    assert QueueOk(cfg, s, pk);
    forall id | id in LiveIds(s.items, pk) ensures id in p.pending || id in FlyingIds(s, pk) {
      assert ItemOk(cfg, s, {}, id);
      if s.items[id].dispatched {
        assert BatchOk(cfg, s, {}, s.items[id].batchID);
      }
    }
    forall id | id in FlyingIds(s, pk) ensures id in LiveIds(s.items, pk) && s.items[id].dispatched {
      var n :| n in s.inflight && s.inflight[n].partition == pk && id in s.inflight[n].items;
      assert BatchOk(cfg, s, {}, n);
    }
  }

  /** A partition's index, queue and live count agree with what is pending and in flight. */
  ghost predicate IndexIs(cfg: Config, s: State, pk: string)
    requires pk in s.partitions
  {
    var p := s.partitions[pk];
    && (forall id :: InIndex(p, id) <==> id in p.pending || id in FlyingIds(s, pk))
    && (forall h :: h in p.active ==> p.active[h] != [] && Distinct(p.active[h]))
    && (forall g, h, id :: g in p.active && h in p.active && id in p.active[g] && id in p.active[h] ==> g == h)
    && Distinct(p.pending) && Elems(p.pending) !! FlyingIds(s, pk)
    && p.live == |p.pending| + |FlyingIds(s, pk)|
    && (cfg.dedup ==> forall a, b :: InIndex(p, a) && InIndex(p, b) && a != b ==>
                                       a in s.items && b in s.items && !cfg.equal(s.items[a].key, s.items[b].key))
  }

  /**
   In every reachable state a partition's index holds exactly its pending items and the items of its
   in-flight batches, each in one bucket once; `live` is their number; the partition of a batch in
   flight is not retired; and with deduplication no two of them have equal keys.
   */
  lemma IndexExact(cfg: Config, law: Law, states: seq<State>, steps: seq<Step>, i: nat, pk: string)
    requires ConfigValid(cfg) && LawOk(law) && IsRun(cfg, law, states, steps) && i < |states|
    ensures pk in FlyingPartitions(states[i]) ==> pk in states[i].partitions
    ensures pk in states[i].partitions ==> IndexIs(cfg, states[i], pk)
  {
    hide Inv, IndexIs, FlyingPartitions;
    RunInvariant(cfg, law, states, steps, i);
    InflightPartition(cfg, states[i], pk);
    if pk in states[i].partitions {
      IndexOf(cfg, states[i], pk);
    }
  }

  ghost function FlyingPartitions(s: State): set<string> {
    set n | n in s.inflight :: s.inflight[n].partition
  }

  lemma InflightPartition(cfg: Config, s: State, pk: string)
    requires Inv(cfg, s)
    ensures pk in FlyingPartitions(s) ==> pk in s.partitions
  {
    hide ItemsOk, QueuesOk, WaitersOk, DedupOk, CountersOk, ParkedOk, BarriersOk, CancelExact, BatchLimits;
    if pk in FlyingPartitions(s) {
      var n :| n in s.inflight && s.inflight[n].partition == pk;
      assert BatchOk(cfg, s, {}, n);
    }
  }

  lemma BucketsDisjoint(items: map<nat, Item>, pk: string, active: map<nat, seq<nat>>)
    requires IndexOk(items, pk, active)
    ensures forall g, h, id :: g in active && h in active && id in active[g] && id in active[h] ==> g == h
  {
    forall g, h, id | g in active && h in active && id in active[g] && id in active[h] ensures g == h {
      assert items[id].hash == g && items[id].hash == h;
    }
  }

  lemma IndexOf(cfg: Config, s: State, pk: string)
    requires Inv(cfg, s) && pk in s.partitions
    ensures IndexIs(cfg, s, pk)
  {
    hide Core, ParkedOk, BarriersOk, InIndex, FlyingIds, Distinct;
    IndexMembers(cfg, s, pk);
    IndexBuckets(cfg, s, pk);
    IndexCounts(cfg, s, pk);
    if cfg.dedup {
      forall a, b | InIndex(s.partitions[pk], a) && InIndex(s.partitions[pk], b) && a != b
        ensures a in s.items && b in s.items && !cfg.equal(s.items[a].key, s.items[b].key)
      {
        IndexKeysDiffer(cfg, s, pk, a, b);
      }
    }
  }

  lemma QueueIsOk(cfg: Config, s: State, pk: string)
    requires Core(cfg, s, {}) && pk in s.partitions
    ensures QueueOk(cfg, s, pk)
  {
    hide QueueOk, ItemsOk, BatchesOk, WaitersOk, DedupOk, CountersOk;
  }

  lemma IndexMembers(cfg: Config, s: State, pk: string)
    requires Core(cfg, s, {}) && pk in s.partitions
    ensures forall id :: InIndex(s.partitions[pk], id) <==> id in s.partitions[pk].pending || id in FlyingIds(s, pk)
  {
    hide Core, InIndex, QueueOk, LiveIds, FlyingIds;
    LiveSplit(cfg, s, pk);
    QueueIsOk(cfg, s, pk);
    forall id ensures InIndex(s.partitions[pk], id) <==> id in LiveIds(s.items, pk) {
      IndexedIsLive(cfg, s, pk, id);
    }
  }

  lemma IndexBuckets(cfg: Config, s: State, pk: string)
    requires Core(cfg, s, {}) && pk in s.partitions
    ensures var p := s.partitions[pk];
            && (forall h :: h in p.active ==> p.active[h] != [] && Distinct(p.active[h]))
            && (forall g, h, id :: g in p.active && h in p.active && id in p.active[g] && id in p.active[h] ==> g == h)
  {
    hide Core, WithinLimits;
    QueueIsOk(cfg, s, pk);
    BucketsDisjoint(s.items, pk, s.partitions[pk].active);
  }

  lemma IndexCounts(cfg: Config, s: State, pk: string)
    requires Core(cfg, s, {}) && pk in s.partitions
    ensures var p := s.partitions[pk];
            Distinct(p.pending) && Elems(p.pending) !! FlyingIds(s, pk) && p.live == |p.pending| + |FlyingIds(s, pk)|
  {
    hide Core, WithinLimits, IndexOk, LiveIds, FlyingIds;
    QueueIsOk(cfg, s, pk);
    LiveSplit(cfg, s, pk);
    DistinctSize(s.partitions[pk].pending);
  }

  lemma IndexKeysDiffer(cfg: Config, s: State, pk: string, a: nat, b: nat)
    requires Core(cfg, s, {}) && pk in s.partitions && cfg.dedup && a != b
    requires InIndex(s.partitions[pk], a) && InIndex(s.partitions[pk], b)
    ensures a in s.items && b in s.items && !cfg.equal(s.items[a].key, s.items[b].key)
  {
    hide ItemsOk, QueuesOk, BatchesOk, WaitersOk, CountersOk, InIndex, QueueOk;
    QueueIsOk(cfg, s, pk);
    IndexedIsLive(cfg, s, pk, a);
    IndexedIsLive(cfg, s, pk, b);
  }

  // ---------------------------------------------------------------- bounds and isolation

  /** Concurrency, batch and queue limits hold in every reachable state. */
  lemma BoundsHold(cfg: Config, law: Law, states: seq<State>, steps: seq<Step>, i: nat)
    requires ConfigValid(cfg) && LawOk(law) && IsRun(cfg, law, states, steps) && i < |states|
    ensures var s := states[i];
            && |s.inflight| == s.activeProvider <= cfg.maxConcurrency
            && (forall n :: n in s.inflight ==>
                              && 1 <= |s.inflight[n].items| <= cfg.maxBatchSize
                              && (cfg.maxBatchWeight > 0 ==>
                                Total(s.items, Weight, s.inflight[n].items) <= cfg.maxBatchWeight)
                              && (cfg.maxBatchBytes > 0 ==>
                                Total(s.items, Bytes, s.inflight[n].items) <= cfg.maxBatchBytes))
            && (forall pk :: pk in s.partitions ==>
                               && (cfg.limits.maxItems > 0 ==> |s.partitions[pk].pending| <= cfg.limits.maxItems)
                               && (cfg.limits.maxBytes > 0 ==>
                                 Total(s.items, Bytes, s.partitions[pk].pending) <= cfg.limits.maxBytes)
                               && (cfg.limits.maxWeight > 0 ==>
                                 Total(s.items, Weight, s.partitions[pk].pending) <= cfg.limits.maxWeight))
  {
    var s := states[i];
    RunInvariant(cfg, law, states, steps, i);
    hide ItemsOk, WaitersOk, DedupOk, ParkedOk, BarriersOk, IndexOk, CancelExact, IsRun, ConfigValid, LawOk;
    forall n | n in s.inflight ensures |s.inflight[n].items| >= 1 && BatchLimits(cfg, s.items, s.inflight[n]) {
      assert BatchOk(cfg, s, {}, n);
    }
    forall pk | pk in s.partitions ensures WithinLimits(cfg, s.items, s.partitions[pk]) {
      assert QueueOk(cfg, s, pk);
    }
  }

  /** A batch serves one partition: each of its callers asked in that partition, with a key equal to the item's. */
  lemma Isolation(cfg: Config, law: Law, states: seq<State>, steps: seq<Step>, i: nat, n: nat, id: nat, w: nat)
    requires ConfigValid(cfg) && LawOk(law) && IsRun(cfg, law, states, steps) && i < |states|
    requires n in states[i].inflight && id in states[i].inflight[n].items
    ensures var s := states[i];
            && id in s.items && s.items[id].part == s.inflight[n].partition
            && (w in s.items[id].waiters ==>
                  w in s.waiters && s.waiters[w].part == s.inflight[n].partition
                    && cfg.equal(s.items[id].key, s.waiters[w].key))
  {
    var s := states[i];
    RunInvariant(cfg, law, states, steps, i);
    hide QueuesOk, WaitersOk, DedupOk, ParkedOk, BarriersOk, IsRun, ConfigValid, LawOk, CancelExact, BatchLimits,
      HeldOk;
    assert BatchOk(cfg, s, {}, n);
    assert ItemOk(cfg, s, {}, id);
    if w in s.items[id].waiters {
      assert CallerOf(cfg, s.waiters, s.items[id], w);
    }
  }

  // ---------------------------------------------------------------- provider contexts

  lemma NobodyLeft(cfg: Config, s: State, id: nat)
    requires id in s.items && ItemOk(cfg, s, {}, id) && !s.engineDone
    ensures s.items[id].activeWaiters >= 0
    ensures s.items[id].activeWaiters == 0 <==> forall w :: w in s.items[id].waiters && w in s.waiters ==>
      !s.waiters[w].active
  {
    CountZero(s.waiters, s.items[id].waiters);
  }

  /** Without deduplication, callers cancel a batch's provider context exactly when the last of them left. */
  lemma CancelledWithLastCaller(cfg: Config, law: Law, states: seq<State>, steps: seq<Step>, i: nat, n: nat)
    requires ConfigValid(cfg) && LawOk(law) && IsRun(cfg, law, states, steps) && i < |states|
    requires !cfg.dedup && !states[i].engineDone && n in states[i].inflight
    ensures var s := states[i];
            s.inflight[n].cancelled <==>
            forall id, w :: id in s.inflight[n].items && id in s.items && w in s.items[id].waiters && w in s.waiters ==>
              !s.waiters[w].active
  {
    hide ItemOk, QueuesOk, WaitersOk, DedupOk, ParkedOk, BarriersOk, IsRun, ConfigValid, LawOk, BatchLimits, CountersOk;
    var s := states[i];
    var b := s.inflight[n];
    RunInvariant(cfg, law, states, steps, i);
    assert BatchOk(cfg, s, {}, n);
    forall id | id in b.items
      ensures id in s.items && s.items[id].activeWaiters >= 0
      ensures s.items[id].activeWaiters == 0 <==> forall w :: w in s.items[id].waiters && w in s.waiters ==>
        !s.waiters[w].active
    {
      NobodyLeft(cfg, s, id);
    }
    SumActivePositive(s.items, b.items);
    assert forall id :: id in b.items ==> id !in {};
  }

  ghost predicate AllDeadlined(ws: map<nat, Waiter>, ids: seq<nat>) {
    && (exists w :: w in ids && w in ws && ws[w].active)
    && (forall w :: w in ids && w in ws && ws[w].active ==> ws[w].deadline.Some?)
  }

  lemma {:induction false} LatestSpec(ws: map<nat, Waiter>, ids: seq<nat>)
    ensures var l := LatestOf(ws, ids);
            && (l.any && l.all <==> AllDeadlined(ws, ids))
            && (l.all <==> forall w :: w in ids && w in ws && ws[w].active ==> ws[w].deadline.Some?)
            && (forall w :: w in ids && w in ws && ws[w].active && ws[w].deadline.Some? ==>
              ws[w].deadline.value <= l.best)
            && l.best >= ZERO_TIME
            && (l.best == ZERO_TIME
                || exists w :: w in ids && w in ws && ws[w].active && ws[w].deadline == Some(l.best))
  {
    if ids != [] {
      var n := |ids| - 1;
      LatestSpec(ws, ids[..n]);
      assert forall w :: w in ids <==> w in ids[..n] || w == ids[n];
    }
  }

  lemma {:induction false} BatchLatestSpec(s: State, ids: seq<nat>)
    requires forall id :: id in ids ==> id in s.items
    ensures var l := BatchLatest(s, ids);
            && (l.all <==> forall id :: id in ids ==> AllDeadlined(s.waiters, s.items[id].waiters))
            && (l.any <==> exists id :: id in ids && AllDeadlined(s.waiters, s.items[id].waiters))
            && (l.all ==> forall id :: id in ids ==> LatestOf(s.waiters, s.items[id].waiters).best <= l.best)
            && (l.best == ZERO_TIME
                || exists id :: id in ids && LatestOf(s.waiters, s.items[id].waiters).best == l.best)
  {
    if ids != [] {
      var n := |ids| - 1;
      assert ids[n] in ids;
      BatchLatestSpec(s, ids[..n]);
      LatestSpec(s.waiters, s.items[ids[n]].waiters);
      hide AllDeadlined, LatestOf;
      assert forall id :: id in ids <==> id in ids[..n] || id == ids[n];
    }
  }

  /**
   A provider context gets a deadline only if every item has an active caller and every active
   caller has a deadline, and it is the latest of theirs, but never earlier than the zero time.
   */
  lemma BatchDeadlineSpec(s: State, ids: seq<nat>)
    requires ids != [] && forall id :: id in ids ==> id in s.items
    ensures BatchDeadline(s, ids).Some? <==> forall id :: id in ids ==> AllDeadlined(s.waiters, s.items[id].waiters)
    ensures BatchDeadline(s, ids).Some? ==>
              forall id, w :: id in ids && w in s.items[id].waiters && w in s.waiters && s.waiters[w].active ==>
                                s.waiters[w].deadline.Some?
                                  && s.waiters[w].deadline.value <= BatchDeadline(s, ids).value
    ensures BatchDeadline(s, ids).Some? ==>
              || BatchDeadline(s, ids).value == ZERO_TIME
              || exists id, w :: id in ids && w in s.items[id].waiters && w in s.waiters && s.waiters[w].active
                                 && s.waiters[w].deadline == BatchDeadline(s, ids)
  {
    BatchLatestSpec(s, ids);
    assert ids[0] in ids;
    hide BatchLatest;
    forall id | id in ids ensures LatestOf(s.waiters, s.items[id].waiters) == LatestOf(s.waiters, s.items[id].waiters) {
      LatestSpec(s.waiters, s.items[id].waiters);
    }
    if BatchDeadline(s, ids).Some? {
      forall id, w | id in ids && w in s.items[id].waiters && w in s.waiters && s.waiters[w].active
        ensures s.waiters[w].deadline.Some? && s.waiters[w].deadline.value <= BatchDeadline(s, ids).value
      {
        LatestSpec(s.waiters, s.items[id].waiters);
      }
      var best := BatchDeadline(s, ids).value;
      if best != ZERO_TIME {
        var id :| id in ids && LatestOf(s.waiters, s.items[id].waiters).best == best;
        LatestSpec(s.waiters, s.items[id].waiters);
      }
    }
  }

  // ---------------------------------------------------------------- accounting

  /** The running totals equal what is queued. */
  ghost predicate ExactTotals(items: map<nat, Item>, p: Partition) {
    p.bytes == Total(items, Bytes, p.pending) && p.weight == Total(items, Weight, p.pending)
  }

  lemma {:induction false} HeadDecides(cfg: Config, size: int, items: map<nat, Item>, ids: seq<nat>)
    requires ids != [] && Known(items, ids) && forall id :: id in ids ==> items[id].activeWaiters >= 1
    ensures var r := Select(cfg, size, items, ids);
            if TooLarge(cfg, items[ids[0]]) then ids[0] in r.gone else r.gone == [] && r.selected != []
  {
    var n := |ids| - 1;
    assert ids[n] in ids && ids[0] in ids;
    if n > 0 {
      assert ids[..n][0] == ids[0];
      HeadDecides(cfg, size, items, ids[..n]);
    } else {
      assert Select(cfg, size, items, ids[..0]) == NO_SELECTION;
    }
  }

  lemma {:induction false} TotalAtLeast(items: map<nat, Item>, m: Measure, ids: seq<nat>, x: nat)
    requires x in ids && x in items
    ensures Total(items, m, ids) >= SizeOf(m, items[x])
  {
    if ids[|ids| - 1] != x {
      assert x in ids[..|ids| - 1];
      TotalAtLeast(items, m, ids[..|ids| - 1], x);
    }
  }

  lemma DispatchTotals(cfg: Config, law: Law, s: State, pk: string)
    requires ConfigValid(cfg) && LawOk(law) && Core(cfg, s, {}) && pk in s.partitions && s.partitions[pk].pending != []
    requires s.activeProvider < MaxConcurrency(cfg, s)
    ensures var sel := Select(cfg, MaxBatchSize(cfg, s), s.items, s.partitions[pk].pending);
            var s' := Dispatch(cfg, s, pk);
            && pk in s'.partitions && s'.partitions[pk].pending == sel.remaining
            && s'.partitions[pk].bytes == s.partitions[pk].bytes - sel.bytes
            && s'.partitions[pk].weight == s.partitions[pk].weight - sel.weight
            && s'.partitions[pk].failed == s.partitions[pk].failed + Records(s.items, sel.gone)
            && (forall id :: id in sel.remaining ==>
              id in s.items && id in s'.items && s'.items[id].weight == s.items[id].weight
                && s'.items[id].bytes == s.items[id].bytes)
            && Sums(s.items, s.partitions[pk].pending, sel)
  {
    hide Core, ConfigValid, LawOk, Select, FinishAll, Progress, Splits, BatchFits, WithinLimits, Picked, FinishReady,
      Fates, Maximal, Sums, CutOk, Known, CountOk, Startable, Records;
    var sel := Select(cfg, MaxBatchSize(cfg, s), s.items, s.partitions[pk].pending);
    var s1 := Cut(cfg, s, pk);
    CoreCounters(cfg, s);
    EffectiveBounds(cfg, s);
    QueueKnown(cfg, s, pk);
    SelectSpec(cfg, MaxBatchSize(cfg, s), s.items, s.partitions[pk].pending);
    CutKeeps(cfg, law, s, pk);
    TeardownKeeps(cfg, law, s, pk);
    TeardownItems(cfg, law, s, pk);
    var s2 := FinishAll(s1, pk, sel.gone, sel.results);
    FinishAllApart(s1, pk, sel.gone, sel.results);
    if sel.selected != [] {
      SelectedKnown(cfg, s2, pk, sel);
      CoreItems(cfg, s2, Elems(sel.selected));
      RequestAccepted(cfg, s2, Elems(sel.selected), sel.selected);
      StartFields(s2, pk, sel);
    }
  }

  /**
   A dispatch splits the queue into batch, oversized and remaining, in order, with nothing lost or
   doubled; the head always leaves; every item given up was too large for any batch, with a caller
   still waiting; and the request built for the rest is always accepted.
   */
  lemma DispatchSplits(cfg: Config, law: Law, s: State, pk: string)
    requires ConfigValid(cfg) && LawOk(law) && Core(cfg, s, {}) && pk in s.partitions && s.partitions[pk].pending != []
    requires s.activeProvider < MaxConcurrency(cfg, s)
    ensures var pending := s.partitions[pk].pending;
            var sel := Select(cfg, MaxBatchSize(cfg, s), s.items, pending);
            var s1 := FinishAll(Cut(cfg, s, pk), pk, sel.gone, sel.results);
            && Splits(pending, sel) && pk in Dispatch(cfg, s, pk).partitions
            && Dispatch(cfg, s, pk).partitions[pk].pending == sel.remaining
            && |sel.remaining| < |pending| && pending[0] !in sel.remaining
            && (forall i :: 0 <= i < |sel.gone| ==> AllTooLarge(cfg, s, sel, i))
            && (sel.selected != [] ==> RequestValid(RequestFor(s1, sel.selected)))
  {
    hide ConfigValid, LawOk, Core, Select, FinishAll, Progress, Sums, BatchFits, Picked, FinishReady, Maximal, CutOk,
      CountOk, Startable, RequestFor, Dispatch;
    var pending := s.partitions[pk].pending;
    var sel := Select(cfg, MaxBatchSize(cfg, s), s.items, pending);
    CoreCounters(cfg, s);
    EffectiveBounds(cfg, s);
    QueueKnown(cfg, s, pk);
    SelectSpec(cfg, MaxBatchSize(cfg, s), s.items, pending);
    DispatchTotals(cfg, law, s, pk);
    SelectHead(cfg, MaxBatchSize(cfg, s), s.items, pending);
    HeadGone(pending, sel);
    forall i | 0 <= i < |sel.gone| ensures AllTooLarge(cfg, s, sel, i) {
      SubseqIn(sel.gone, pending, sel.gone[i]);
    }
    CutKeeps(cfg, law, s, pk);
    TeardownKeeps(cfg, law, s, pk);
    var s1 := FinishAll(Cut(cfg, s, pk), pk, sel.gone, sel.results);
    FinishAllApart(Cut(cfg, s, pk), pk, sel.gone, sel.results);
    if sel.selected != [] {
      SelectedKnown(cfg, s1, pk, sel);
      CoreItems(cfg, s1, Elems(sel.selected));
      RequestAccepted(cfg, s1, Elems(sel.selected), sel.selected);
    }
  }

  ghost predicate AllTooLarge(cfg: Config, s: State, sel: Selection, i: nat)
    requires i < |sel.gone| == |sel.results|
  {
    sel.gone[i] in s.items && s.items[sel.gone[i]].activeWaiters >= 1
    && TooLarge(cfg, s.items[sel.gone[i]]) && sel.results[i] == Some(Broken(ItemTooLarge))
  }

  lemma HeadGone(ids: seq<nat>, sel: Selection)
    requires Splits(ids, sel) && ids != [] && Distinct(ids) && ids[0] in sel.selected + sel.gone
    ensures ids[0] !in sel.remaining && |sel.remaining| < |ids|
  {
    assert |multiset(ids)| == |ids|;
    assert multiset(ids)[ids[0]] <= 1 by { CountOnce(ids, 0); }
    assert ids[0] in multiset(sel.selected) || ids[0] in multiset(sel.gone);
    assert |multiset(sel.selected)| + |multiset(sel.gone)| > 0;
  }

  lemma CountOnce(ids: seq<nat>, i: nat)
    requires Distinct(ids) && i < |ids|
    ensures multiset(ids)[ids[i]] == 1
  {
    assert ids == ids[..i] + [ids[i]] + ids[i + 1..];
  }

  lemma {:induction false} SelectHead(cfg: Config, size: int, items: map<nat, Item>, ids: seq<nat>)
    requires ids != [] && Known(items, ids)
    ensures var r := Select(cfg, size, items, ids); ids[0] in r.selected + r.gone
  {
    var n := |ids| - 1;
    assert ids[n] in ids && ids[0] in ids;
    if n > 0 {
      SelectHead(cfg, size, items, ids[..n]);
    } else {
      assert ids[..n] == [];
    }
  }

  lemma CoreCounters(cfg: Config, s: State)
    requires Core(cfg, s, {})
    ensures CountersOk(cfg, s)
  {
  }

  lemma TeardownItems(cfg: Config, law: Law, s: State, pk: string)
    requires ConfigValid(cfg) && LawOk(law) && Core(cfg, s, {}) && pk in s.partitions
    ensures var sel := Select(cfg, MaxBatchSize(cfg, s), s.items, s.partitions[pk].pending);
            |sel.gone| == |sel.results| &&
            var s2 := FinishAll(Cut(cfg, s, pk), pk, sel.gone, sel.results);
            && pk in s2.partitions && s2.partitions[pk].pending == sel.remaining
            && (forall id :: id in sel.remaining ==> id in s.items && id in s2.items && s2.items[id] == s.items[id])
  {
    CutKeeps(cfg, law, s, pk);
    hide Core, ConfigValid, LawOk, Select, FinishAll, Progress, Sums, Splits, BatchFits, WithinLimits, Picked,
      FinishReady;
    var sel := Select(cfg, MaxBatchSize(cfg, s), s.items, s.partitions[pk].pending);
    var s1 := Cut(cfg, s, pk);
    FinishAllKeeps(cfg, law, s1, Elems(sel.selected) + Elems(sel.gone), pk, sel.gone, sel.results);
    forall id | id in sel.remaining ensures id !in Elems(sel.gone) { }
  }

  /**
   Dispatching from a partition with exact totals leaves them exact if and only if the item at the
   head of the queue is not oversized: an oversized item is failed without being subtracted.
   */
  lemma TotalsStayExact(cfg: Config, law: Law, s: State, pk: string)
    requires ConfigValid(cfg) && LawOk(law) && Core(cfg, s, {}) && pk in s.partitions && s.partitions[pk].pending != []
    requires s.activeProvider < MaxConcurrency(cfg, s) && s.partitions[pk].pending[0] in s.items
    requires ExactTotals(s.items, s.partitions[pk])
    ensures var s' := Dispatch(cfg, s, pk);
            pk in s'.partitions && (ExactTotals(s'.items, s'.partitions[pk]) <==>
              !TooLarge(cfg, s.items[s.partitions[pk].pending[0]]))
  {
    hide Core, ConfigValid, LawOk, Dispatch, CountOk, WithinLimits, Select, Total;
    DispatchTotals(cfg, law, s, pk);
    QueueKnown(cfg, s, pk);
    var p := s.partitions[pk];
    var sel := Select(cfg, MaxBatchSize(cfg, s), s.items, p.pending);
    var s' := Dispatch(cfg, s, pk);
    HeadDecides(cfg, MaxBatchSize(cfg, s), s.items, p.pending);
    TotalFrame(s.items, s'.items, Weight, sel.remaining);
    TotalFrame(s.items, s'.items, Bytes, sel.remaining);
    if TooLarge(cfg, s.items[p.pending[0]]) {
      TotalAtLeast(s.items, Weight, sel.gone, p.pending[0]);
      TotalAtLeast(s.items, Bytes, sel.gone, p.pending[0]);
    } else {
      TotalNone(s.items);
    }
  }

  lemma TotalNone(items: map<nat, Item>)
    ensures Total(items, Weight, []) == 0 && Total(items, Bytes, []) == 0
  {
  }
}
