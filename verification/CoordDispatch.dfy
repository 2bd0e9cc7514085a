/** Selecting and starting batches keeps the invariant; no item is lost, duplicated or reordered. */
module CoordDispatch {
  import opened Seqs
  import opened Wire
  import opened CoordModel
  import opened CoordInvariant
  import opened CoordSteps
  import opened CoordSubmit

  // ---------------------------------------------------------------- the selection pass

  ghost predicate Known(items: map<nat, Item>, ids: seq<nat>) {
    forall id :: id in ids ==> id in items && items[id].id == id
  }

  /** The pass splits the queue into three lists, losing nothing and keeping the order of each. */
  ghost predicate Splits(ids: seq<nat>, r: Selection) {
    && Subseq(r.selected, ids) && Subseq(r.gone, ids) && Subseq(r.remaining, ids)
    && multiset(ids) == multiset(r.selected) + multiset(r.gone) + multiset(r.remaining)
  }

  ghost predicate Sums(items: map<nat, Item>, ids: seq<nat>, r: Selection) {
    && r.weight == Total(items, Weight, r.selected) && r.bytes == Total(items, Bytes, r.selected)
    && Total(items, Weight, ids) ==
       Total(items, Weight, r.selected) + Total(items, Weight, r.gone) + Total(items, Weight, r.remaining)
    && Total(items, Bytes, ids) ==
       Total(items, Bytes, r.selected) + Total(items, Bytes, r.gone) + Total(items, Bytes, r.remaining)
  }

  ghost predicate BatchFits(cfg: Config, size: int, items: map<nat, Item>, r: Selection) {
    && |r.selected| <= size
    && (cfg.maxBatchWeight > 0 ==> r.weight <= cfg.maxBatchWeight)
    && (cfg.maxBatchBytes > 0 ==> r.bytes <= cfg.maxBatchBytes)
    && (forall id :: id in r.selected && id in items ==> r.minSeq <= items[id].order)
    && LeastTaken(items, r)
  }

  ghost predicate LeastTaken(items: map<nat, Item>, r: Selection) {
    r.minSeq == MAX_UINT64 || exists id :: id in r.selected && id in items && items[id].order == r.minSeq
  }

  /** No batch could ever take the item. */
  ghost predicate OverABatch(cfg: Config, it: Item) {
    (cfg.maxBatchWeight > 0 && it.weight > cfg.maxBatchWeight)
      || (cfg.maxBatchBytes > 0 && it.bytes > cfg.maxBatchBytes)
  }

  /** Selected and remaining items have callers; an item is torn down for having none or being too large. */
  ghost predicate Fates(cfg: Config, items: map<nat, Item>, r: Selection) {
    && |r.gone| == |r.results|
    && (forall i :: 0 <= i < |r.gone| && r.gone[i] in items ==>
                      if items[r.gone[i]].activeWaiters == 0 then r.results[i] == None
                      else OverABatch(cfg, items[r.gone[i]]) && r.results[i] == Some(Broken(ItemTooLarge)))
    && (forall id :: id in r.selected && id in items ==> items[id].activeWaiters != 0)
  }

  /** The batch is maximal: nothing left behind would still fit. */
  ghost predicate Maximal(cfg: Config, size: int, items: map<nat, Item>, r: Selection) {
    && (r.selected == [] ==> r.remaining == [])
    && (forall id :: id in r.remaining && id in items ==>
                       Overfills(cfg, size, |r.selected|, r.weight, r.bytes, items[id]))
  }

  /** A batch of this count, weight and bytes would break a limit with the item. */
  ghost predicate Overfills(cfg: Config, size: int, count: int, weight: int, bytes: int, it: Item) {
    || count + 1 > size
    || (cfg.maxBatchWeight > 0 && weight + it.weight > cfg.maxBatchWeight)
    || (cfg.maxBatchBytes > 0 && bytes + it.bytes > cfg.maxBatchBytes)
  }

  /** Item `id` did not fit with the first `n` items selected, all of them ahead of it. */
  ghost predicate NoRoom(cfg: Config, size: int, items: map<nat, Item>, ahead: seq<nat>, r: Selection, id: nat, n: nat)
    requires n <= |r.selected| && id in items
  {
    && (forall x :: x in r.selected[..n] ==> x in ahead)
    && Overfills(cfg, size, n, Total(items, Weight, r.selected[..n]), Total(items, Bytes, r.selected[..n]), items[id])
  }

  /** The choice is greedy and in order: an item is passed over only for items ahead of it. */
  ghost predicate Greedy(cfg: Config, size: int, items: map<nat, Item>, ids: seq<nat>, r: Selection) {
    forall k :: 0 <= k < |ids| && ids[k] in items && ids[k] in r.remaining ==>
                  exists n :: 0 <= n <= |r.selected| && NoRoom(cfg, size, items, ids[..k], r, ids[k], n)
  }

  lemma SplitStep(ids: seq<nat>, acc: Selection, id: nat, r: Selection)
    requires Splits(ids, acc)
    requires || (r.selected == acc.selected + [id] && r.gone == acc.gone && r.remaining == acc.remaining)
             || (r.selected == acc.selected && r.gone == acc.gone + [id] && r.remaining == acc.remaining)
             || (r.selected == acc.selected && r.gone == acc.gone && r.remaining == acc.remaining + [id])
    ensures Splits(ids + [id], r)
  {
    SubseqSkip(acc.selected, ids, id);
    SubseqSkip(acc.gone, ids, id);
    SubseqSkip(acc.remaining, ids, id);
    SubseqTake(acc.selected, ids, id);
    SubseqTake(acc.gone, ids, id);
    SubseqTake(acc.remaining, ids, id);
  }

  lemma SumStep(cfg: Config, size: int, items: map<nat, Item>, ids: seq<nat>, acc: Selection, id: nat)
    requires Sums(items, ids, acc) && id in items && items[id].id == id
    ensures Sums(items, ids + [id], SelectOne(cfg, size, acc, items[id]))
  {
    hide Total, TooLarge, Fits;
    TotalAppend(items, Weight, ids, id);
    TotalAppend(items, Bytes, ids, id);
    TotalAppend(items, Weight, acc.selected, id);
    TotalAppend(items, Bytes, acc.selected, id);
    TotalAppend(items, Weight, acc.gone, id);
    TotalAppend(items, Bytes, acc.gone, id);
    TotalAppend(items, Weight, acc.remaining, id);
    TotalAppend(items, Bytes, acc.remaining, id);
  }

  lemma LimitStep(cfg: Config, size: int, items: map<nat, Item>, acc: Selection, id: nat)
    requires BatchFits(cfg, size, items, acc) && Fates(cfg, items, acc) && Maximal(cfg, size, items, acc)
    requires size >= 1 && id in items && items[id].id == id
    requires (acc.selected == [] ==> acc.weight == 0 && acc.bytes == 0)
    ensures var r := SelectOne(cfg, size, acc, items[id]);
            && BatchFits(cfg, size, items, r) && Fates(cfg, items, r) && Maximal(cfg, size, items, r)
            && (r.selected == [] ==> r.weight == 0 && r.bytes == 0)
  {
  }

  /** What a selection pass guarantees for every queue and every batch limit. */
  lemma {:induction false} SelectSpec(cfg: Config, size: int, items: map<nat, Item>, ids: seq<nat>)
    requires size >= 1 && Known(items, ids)
    ensures var r := Select(cfg, size, items, ids);
            && Splits(ids, r) && Sums(items, ids, r)
            && BatchFits(cfg, size, items, r) && Fates(cfg, items, r) && Maximal(cfg, size, items, r)
            && (r.selected == [] ==> r.weight == 0 && r.bytes == 0)
  {
    hide Splits, Sums, BatchFits, Fates, Maximal;
    if ids == [] {
      EmptySelection(cfg, size, items);
    } else {
      var n := |ids| - 1;
      var id := ids[n];
      assert id in ids;
      SelectSpec(cfg, size, items, ids[..n]);
      var acc := Select(cfg, size, items, ids[..n]);
      var r := SelectOne(cfg, size, acc, items[id]);
      SplitStep(ids[..n], acc, id, r);
      SumStep(cfg, size, items, ids[..n], acc, id);
      LimitStep(cfg, size, items, acc, id);
      assert ids[..n] + [id] == ids;
    }
  }

  lemma NoRoomMore(cfg: Config, size: int, items: map<nat, Item>, ids: seq<nat>, acc: Selection, r: Selection, k: nat)
    requires k < |ids| && ids[k] in items && acc.selected <= r.selected
    requires exists n :: 0 <= n <= |acc.selected| && NoRoom(cfg, size, items, ids[..k], acc, ids[k], n)
    ensures exists n :: 0 <= n <= |r.selected| && NoRoom(cfg, size, items, ids[..k], r, ids[k], n)
  {
    hide Overfills;
    var n :| 0 <= n <= |acc.selected| && NoRoom(cfg, size, items, ids[..k], acc, ids[k], n);
    assert r.selected[..n] == acc.selected[..n];
    assert NoRoom(cfg, size, items, ids[..k], r, ids[k], n);
  }

  lemma SelectOneFates(cfg: Config, size: int, acc: Selection, it: Item)
    requires size >= 1 && it.weight >= 0
    ensures var r := SelectOne(cfg, size, acc, it);
            && acc.selected <= r.selected
            && (r.remaining == acc.remaining
                || (r.remaining == acc.remaining + [it.id] && r.selected == acc.selected
                    && Overfills(cfg, size, |acc.selected|, acc.weight, acc.bytes, it)))
  {
  }

  /** Items leave the queue in order of arrival as far as they fit. */
  lemma {:induction false} SelectGreedy(cfg: Config, size: int, items: map<nat, Item>, ids: seq<nat>)
    requires size >= 1 && Known(items, ids) && Distinct(ids)
    ensures Greedy(cfg, size, items, ids, Select(cfg, size, items, ids))
  {
    if ids != [] {
      var n := |ids| - 1;
      var id := ids[n];
      var acc, r := Select(cfg, size, items, ids[..n]), Select(cfg, size, items, ids);
      assert id in ids;
      SelectGreedy(cfg, size, items, ids[..n]);
      SelectSpec(cfg, size, items, ids[..n]);
      SelectOneFates(cfg, size, acc, items[id]);
      assert r == SelectOne(cfg, size, acc, items[id]);
      hide Select, SelectOne, BatchFits, Fates, Maximal, Splits;
      forall k | 0 <= k < |ids| && ids[k] in items && ids[k] in r.remaining
        ensures exists m :: 0 <= m <= |r.selected| && NoRoom(cfg, size, items, ids[..k], r, ids[k], m)
      {
        if k < n {
          assert ids[..n][..k] == ids[..k] && ids[..n][k] == ids[k];
          assert ids[k] in acc.remaining;
          NoRoomMore(cfg, size, items, ids, acc, r, k);
        } else {
          NewlyPassed(cfg, size, items, ids, acc, r);
        }
      }
    }
  }

  lemma NewlyPassed(cfg: Config, size: int, items: map<nat, Item>, ids: seq<nat>, acc: Selection, r: Selection)
    requires ids != [] && Distinct(ids)
    requires var n := |ids| - 1;
             && Splits(ids[..n], acc) && Sums(items, ids[..n], acc) && ids[n] in items && ids[n] in r.remaining
             && (r.remaining == acc.remaining
                 || (r.remaining == acc.remaining + [ids[n]] && r.selected == acc.selected
                     && Overfills(cfg, size, |acc.selected|, acc.weight, acc.bytes, items[ids[n]])))
    ensures |acc.selected| <= |r.selected|
    ensures NoRoom(cfg, size, items, ids[..|ids| - 1], r, ids[|ids| - 1], |acc.selected|)
  {
    hide Overfills, Total;
    var n := |ids| - 1;
    if ids[n] in acc.remaining {
      SubseqIn(acc.remaining, ids[..n], ids[n]);
    }
    assert r.selected[..|acc.selected|] == acc.selected;
    forall x | x in acc.selected ensures x in ids[..n] {
      SubseqIn(acc.selected, ids[..n], x);
    }
  }

  lemma EmptySelection(cfg: Config, size: int, items: map<nat, Item>)
    requires size >= 1
    ensures var r := NO_SELECTION;
            Splits([], r) && Sums(items, [], r) && BatchFits(cfg, size, items, r) && Fates(cfg, items, r)
              && Maximal(cfg, size, items, r)
  {
  }

  /** On a queue without duplicates the three lists are disjoint and cover it. */
  lemma SplitElems(ids: seq<nat>, r: Selection)
    requires Splits(ids, r) && Distinct(ids)
    ensures Distinct(r.selected) && Distinct(r.gone) && Distinct(r.remaining)
    ensures forall id :: id in ids <==> id in r.selected || id in r.gone || id in r.remaining
    ensures forall id :: id in r.selected ==> id !in r.gone && id !in r.remaining
    ensures forall id :: id in r.gone ==> id !in r.remaining
  {
    SubseqDistinct(r.selected, ids);
    SubseqDistinct(r.gone, ids);
    SubseqDistinct(r.remaining, ids);
    DistinctOnce(ids);
    forall id ensures id in ids <==> id in r.selected || id in r.gone || id in r.remaining
      ensures id in r.selected ==> id !in r.gone && id !in r.remaining
      ensures id in r.gone ==> id !in r.remaining
    {
      assert multiset(ids)[id] == multiset(r.selected)[id] + multiset(r.gone)[id] + multiset(r.remaining)[id];
      assert id in ids <==> id in multiset(ids);
      assert id in r.selected <==> id in multiset(r.selected);
      assert id in r.gone <==> id in multiset(r.gone);
      assert id in r.remaining <==> id in multiset(r.remaining);
    }
  }

  lemma {:induction false} DistinctOnce(ids: seq<nat>)
    requires Distinct(ids)
    ensures forall id :: multiset(ids)[id] <= 1
  {
    if ids != [] {
      var n := |ids| - 1;
      DistinctOnce(ids[..n]);
      assert ids == ids[..n] + [ids[n]];
      assert ids[n] !in multiset(ids[..n]);
    }
  }

  // ---------------------------------------------------------------- starting the batch

  /** A selection ready to be started: its items are loose, wanted, and within the limits. */
  ghost predicate Startable(cfg: Config, s: State, pk: string, sel: Selection) {
    && pk in s.partitions
    && sel.selected != [] && Distinct(sel.selected)
    && (forall id :: id in sel.selected ==>
                       && Loose(s, id) && s.items[id].part == pk && CountOk(s, s.items[id])
                       && s.items[id].activeWaiters >= 1 && !s.items[id].dispatched)
    && Sums(s.items, sel.selected, sel.(gone := [], remaining := []))
    && BatchFits(cfg, cfg.maxBatchSize, s.items, sel)
    && s.activeProvider < cfg.maxConcurrency
  }

  lemma StartFields(s: State, pk: string, sel: Selection)
    requires pk in s.partitions
    ensures var s' := StartBatch(s, pk, sel);
            var n := s.batchSeq + 1;
            && s' == s.(partitions := s'.partitions, items := s'.items, inflight := s'.inflight, batchSeq := n,
              activeProvider := s.activeProvider + 1)
            && s'.partitions == s.partitions[pk := s.partitions[pk].(bytes := s.partitions[pk].bytes - sel.bytes,
              weight := s.partitions[pk].weight - sel.weight)]
            && s'.items.Keys == s.items.Keys
            && (forall id :: id in s.items && id in sel.selected ==>
              s'.items[id] == s.items[id].(dispatched := true, batchID := n))
            && (forall id :: id in s.items && id !in sel.selected ==> s'.items[id] == s.items[id])
            && s'.inflight == s.inflight[n := Batch(sel.selected, SumActive(s.items, sel.selected), pk, sel.minSeq,
              BatchDeadline(s, sel.selected), false)]
  {
  }

  lemma StartedItem(cfg: Config, s: State, pk: string, sel: Selection, i: nat)
    requires Startable(cfg, s, pk, sel) && i in s.items && ItemOk(cfg, s, Elems(sel.selected), i)
    requires s.batchSeq + 1 !in s.inflight
    ensures ItemOk(cfg, StartBatch(s, pk, sel), {}, i)
  {
    StartFields(s, pk, sel);
    hide StartBatch, Sums, BatchFits, Loose;
    var s' := StartBatch(s, pk, sel);
    var it, it' := s.items[i], s'.items[i];
    forall w | w in it.waiters ensures CallerOf(cfg, s'.waiters, it', w) {
      assert CallerOf(cfg, s.waiters, it, w);
    }
    assert i in sel.selected <==> i in Elems(sel.selected);
  }

  lemma QueuedNotSelected(cfg: Config, s: State, pk: string, sel: Selection, q: string)
    requires Startable(cfg, s, pk, sel) && q in s.partitions && QueueOk(cfg, s, q)
    ensures forall id :: id in s.partitions[q].pending ==> id !in sel.selected
  {
    hide Sums, BatchFits, CountOk, IndexOk, WithinLimits;
    forall id | id in s.partitions[q].pending ensures id !in sel.selected {
      assert id in sel.selected ==> Loose(s, id);
    }
  }

  lemma IndexSame(items: map<nat, Item>, items': map<nat, Item>, pk: string, active: map<nat, seq<nat>>)
    requires IndexOk(items, pk, active) && items'.Keys == items.Keys
    requires forall id :: id in items ==> items'[id].part == items[id].part && items'[id].hash == items[id].hash
    ensures IndexOk(items', pk, active)
  {
  }

  /** Marking items that are not queued here does not disturb a queue. */
  lemma MarkedQueue(cfg: Config, s: State, s': State, q: string)
    requires q in s.partitions && QueueOk(cfg, s, q) && q in s'.partitions
    requires s'.partitions[q] == s.partitions[q].(bytes := s'.partitions[q].bytes, weight := s'.partitions[q].weight)
    requires s'.items.Keys == s.items.Keys
    requires forall id :: id in s.items ==>
      s'.items[id] == s.items[id].(dispatched := s'.items[id].dispatched, batchID := s'.items[id].batchID)
    requires forall id :: id in s.items && id in s.partitions[q].pending ==> s'.items[id] == s.items[id]
    requires WithinLimits(cfg, s.items, s'.partitions[q])
    ensures QueueOk(cfg, s', q)
  {
    hide IndexOk;
    var p := s.partitions[q];
    TotalFrame(s.items, s'.items, Weight, p.pending);
    TotalFrame(s.items, s'.items, Bytes, p.pending);
    assert LiveIds(s'.items, q) == LiveIds(s.items, q);
    IndexSame(s.items, s'.items, q, p.active);
  }

  lemma QueueLimits(cfg: Config, s: State, q: string)
    requires q in s.partitions && QueueOk(cfg, s, q)
    ensures WithinLimits(cfg, s.items, s.partitions[q])
  {
  }

  lemma StartedQueue(cfg: Config, s: State, pk: string, sel: Selection, q: string)
    requires Startable(cfg, s, pk, sel) && q in s.partitions && QueueOk(cfg, s, q) && pk in s.partitions
    requires WithinLimits(cfg, s.items,
      s.partitions[pk].(bytes := s.partitions[pk].bytes - sel.bytes, weight := s.partitions[pk].weight - sel.weight))
    ensures QueueOk(cfg, StartBatch(s, pk, sel), q)
  {
    hide StartBatch, Startable, QueueOk, WithinLimits, SumActive, BatchDeadline;
    QueuedNotSelected(cfg, s, pk, sel, q);
    QueueLimits(cfg, s, q);
    StartFields(s, pk, sel);
    MarkedQueue(cfg, s, StartBatch(s, pk, sel), q);
  }

  lemma StartedBatch(cfg: Config, s: State, pk: string, sel: Selection)
    requires Startable(cfg, s, pk, sel)
    ensures BatchOk(cfg, StartBatch(s, pk, sel), {}, s.batchSeq + 1)
  {
    StartFields(s, pk, sel);
    hide StartBatch, CountOk;
    var s' := StartBatch(s, pk, sel);
    var ids := sel.selected;
    TotalFrame(s.items, s'.items, Weight, ids);
    TotalFrame(s.items, s'.items, Bytes, ids);
    SumActiveFrame(s.items, s'.items, ids);
    SumActivePositive(s.items, ids);
    assert ids[0] in ids;
  }

  lemma OlderBatch(cfg: Config, s: State, pk: string, sel: Selection, m: nat)
    requires Startable(cfg, s, pk, sel) && m in s.inflight && BatchOk(cfg, s, Elems(sel.selected), m)
    requires m != s.batchSeq + 1
    ensures BatchOk(cfg, StartBatch(s, pk, sel), {}, m)
  {
    StartFields(s, pk, sel);
    hide StartBatch, Sums, BatchFits, CountOk, CancelExact, BatchLimits;
    forall id | id in s.inflight[m].items ensures id !in sel.selected {
      assert id in sel.selected ==> Loose(s, id);
    }
    assert BatchOk(cfg, s, Elems(sel.selected), m);
    SameBatch(cfg, s, StartBatch(s, pk, sel), Elems(sel.selected), {}, m);
  }

  lemma FreshBatchId(cfg: Config, s: State, X: set<nat>)
    requires BatchesOk(cfg, s, X)
    ensures s.batchSeq + 1 !in s.inflight
  {
    hide CancelExact, BatchLimits;
    if s.batchSeq + 1 in s.inflight {
      assert false;
    }
  }

  lemma StartWaiter(s: State, pk: string, sel: Selection, w: nat)
    requires pk in s.partitions && w in s.waiters && WaiterOk(s, w)
    ensures WaiterOk(StartBatch(s, pk, sel), w)
  {
  }

  lemma StartDedup(cfg: Config, s: State, pk: string, sel: Selection)
    requires pk in s.partitions && DedupOk(cfg, s.items)
    ensures DedupOk(cfg, StartBatch(s, pk, sel).items)
  {
  }

  lemma StartKeeps(cfg: Config, law: Law, s: State, pk: string, sel: Selection)
    requires Core(cfg, s, Elems(sel.selected)) && Startable(cfg, s, pk, sel)
    requires WithinLimits(cfg, s.items,
      s.partitions[pk].(bytes := s.partitions[pk].bytes - sel.bytes, weight := s.partitions[pk].weight - sel.weight))
    ensures var s' := StartBatch(s, pk, sel);
            Core(cfg, s', {}) && Progress(law, s, s')
  {
    hide ItemOk, QueueOk, BatchOk, WaiterOk, DedupOk, StartBatch, WithinLimits, Sums, BatchFits, Loose, CountOk,
      SumActive, BatchDeadline;
    var s' := StartBatch(s, pk, sel);
    FreshBatchId(cfg, s, Elems(sel.selected));
    StartFields(s, pk, sel);
    StartDedup(cfg, s, pk, sel);
    assert |s'.inflight| == |s.inflight| + 1;
    assert CountersOk(cfg, s');
    hide CountersOk;
    assert Progress(law, s, s');
    hide Progress;
    forall i | i in s'.items ensures ItemOk(cfg, s', {}, i) {
      StartedItem(cfg, s, pk, sel, i);
    }
    forall q | q in s'.partitions ensures QueueOk(cfg, s', q) {
      StartedQueue(cfg, s, pk, sel, q);
    }
    forall m | m in s'.inflight ensures BatchOk(cfg, s', {}, m) {
      if m == s.batchSeq + 1 {
        StartedBatch(cfg, s, pk, sel);
      } else {
        OlderBatch(cfg, s, pk, sel, m);
      }
    }
    forall w | w in s'.waiters ensures WaiterOk(s', w) {
      StartWaiter(s, pk, sel, w);
    }
  }

  // ---------------------------------------------------------------- the dispatch step

  /** The queue is well-formed, its items known and wanted. */
  lemma QueueKnown(cfg: Config, s: State, pk: string)
    requires Core(cfg, s, {}) && pk in s.partitions
    ensures Known(s.items, s.partitions[pk].pending) && Distinct(s.partitions[pk].pending)
    ensures WithinLimits(cfg, s.items, s.partitions[pk])
    ensures forall id :: id in s.partitions[pk].pending ==>
                           && s.items[id].part == pk && !s.items[id].dispatched
                           && s.items[id].activeWaiters >= 1 && CountOk(s, s.items[id])
                           && (s.items[id].batchID in s.inflight ==> id !in s.inflight[s.items[id].batchID].items)
  {
    hide IndexOk, CallerOf, WithinLimits, CountOk, CancelExact, BatchLimits, WaitersOk, DedupOk;
    var p := s.partitions[pk];
    assert QueueOk(cfg, s, pk);
    forall id | id in p.pending
      ensures s.items[id].id == id && s.items[id].activeWaiters >= 1 && CountOk(s, s.items[id])
      ensures s.items[id].batchID in s.inflight ==> id !in s.inflight[s.items[id].batchID].items
    {
      assert ItemOk(cfg, s, {}, id);
      if s.items[id].batchID in s.inflight {
        assert BatchOk(cfg, s, {}, s.items[id].batchID);
      }
    }
  }

  /** Effective settings stay within the configured bounds. */
  lemma EffectiveBounds(cfg: Config, s: State)
    requires ConfigValid(cfg) && CountersOk(cfg, s)
    ensures 1 <= MaxBatchSize(cfg, s) <= cfg.maxBatchSize && 1 <= MaxConcurrency(cfg, s) <= cfg.maxConcurrency
  {
  }

  /** The state after the queue was cut down to what remains. */
  ghost function Cut(cfg: Config, s: State, pk: string): (s': State)
    requires pk in s.partitions
  {
    var sel := Select(cfg, MaxBatchSize(cfg, s), s.items, s.partitions[pk].pending);
    SetPartition(s, pk, Requeue(s.partitions[pk], s.items, sel))
  }

  /** Facts about one item that a cut of its queue leaves behind. */
  ghost predicate Picked(s: State, pk: string, id: nat) {
    && Loose(s, id) && s.items[id].part == pk && CountOk(s, s.items[id])
    && s.items[id].activeWaiters >= 1 && !s.items[id].dispatched
  }

  /** The outcome of a selection pass on a queue of a valid state. */
  ghost predicate CutOk(law: Law, s: State, pk: string, sel: Selection) {
    && pk in s.partitions && |sel.gone| == |sel.results|
    && Distinct(sel.selected)
    && (forall id :: id in sel.selected ==> id !in sel.gone && Picked(s, pk, id))
    && (forall id :: id in sel.remaining ==> id in s.items && id !in sel.gone)
    && FinishReady(law, s, pk, sel.gone, sel.results)
    && (forall i :: 0 <= i < |sel.results| ==> sel.results[i] == Some(Broken(ItemTooLarge)))
  }

  lemma CutCore(cfg: Config, s: State, pk: string, sel: Selection)
    requires Core(cfg, s, {}) && pk in s.partitions
    requires Distinct(s.partitions[pk].pending) && Splits(s.partitions[pk].pending, sel)
    requires Sums(s.items, s.partitions[pk].pending, sel)
    requires WithinLimits(cfg, s.items, s.partitions[pk])
    ensures Core(cfg, SetPartition(s, pk, Requeue(s.partitions[pk], s.items, sel)),
      Elems(sel.selected) + Elems(sel.gone))
  {
    hide Core;
    var X := Elems(sel.selected) + Elems(sel.gone);
    var p' := Requeue(s.partitions[pk], s.items, sel);
    SplitElems(s.partitions[pk].pending, sel);
    SubseqShorter(sel.remaining, s.partitions[pk].pending);
    hide Splits;
    assert WithinLimits(cfg, s.items, p');
    hide WithinLimits, Sums;
    Weaken(cfg, s, {}, X);
    RequeueKeeps(cfg, s, X, pk, p');
  }

  lemma CutPicked(s: State, s1: State, pk: string, id: nat, p: Partition)
    requires pk in s.partitions && s1 == SetPartition(s, pk, p)
    requires id in s.items && s.items[id].part == pk && CountOk(s, s.items[id])
    requires s.items[id].activeWaiters >= 1 && !s.items[id].dispatched
    requires s.items[id].batchID in s.inflight ==> id !in s.inflight[s.items[id].batchID].items
    requires id !in p.pending
    ensures Picked(s1, pk, id)
  {
  }

  lemma CutFates(cfg: Config, law: Law, s: State, pk: string, sel: Selection)
    requires LawOk(law) && Fates(cfg, s.items, sel)
    requires forall id :: id in sel.gone ==> id in s.items && s.items[id].activeWaiters >= 1
    ensures forall i :: 0 <= i < |sel.gone| ==>
      sel.results[i] == Some(Broken(ItemTooLarge)) && Deliverable(law, s, sel.gone[i], sel.results[i])
  {
    forall i | 0 <= i < |sel.gone| ensures sel.results[i] == Some(Broken(ItemTooLarge))
      && Deliverable(law, s, sel.gone[i], sel.results[i]) {
      assert sel.gone[i] in sel.gone;
    }
  }

  /** Everything known about the items of a queue before a pass. */
  ghost predicate QueueReady(s: State, pk: string)
  {
    && pk in s.partitions && Distinct(s.partitions[pk].pending) && Known(s.items, s.partitions[pk].pending)
    && forall id :: id in s.partitions[pk].pending ==>
                           && id in s.items && s.items[id].part == pk && CountOk(s, s.items[id])
                           && s.items[id].activeWaiters >= 1 && !s.items[id].dispatched
                           && (s.items[id].batchID in s.inflight ==> id !in s.inflight[s.items[id].batchID].items)
  }

  lemma CutReady(cfg: Config, law: Law, s: State, pk: string, sel: Selection)
    requires LawOk(law) && QueueReady(s, pk)
    requires Splits(s.partitions[pk].pending, sel) && Fates(cfg, s.items, sel)
    ensures CutOk(law, SetPartition(s, pk, Requeue(s.partitions[pk], s.items, sel)), pk, sel)
  {
    SplitElems(s.partitions[pk].pending, sel);
    hide Splits, CountOk, LawOk, Deliverable;
    var s1 := SetPartition(s, pk, Requeue(s.partitions[pk], s.items, sel));
    CutFates(cfg, law, s1, pk, sel);
    hide Fates;
    forall id | id in sel.selected || id in sel.gone ensures Picked(s1, pk, id) {
      CutPicked(s, s1, pk, id, Requeue(s.partitions[pk], s.items, sel));
    }
    forall i | 0 <= i < |sel.gone| ensures Loose(s1, sel.gone[i]) && s1.items[sel.gone[i]].part == pk {
      assert sel.gone[i] in sel.gone && Picked(s1, pk, sel.gone[i]);
    }
  }

  lemma CutKeeps(cfg: Config, law: Law, s: State, pk: string)
    requires ConfigValid(cfg) && LawOk(law) && Core(cfg, s, {}) && pk in s.partitions
    ensures var sel := Select(cfg, MaxBatchSize(cfg, s), s.items, s.partitions[pk].pending);
            && Core(cfg, Cut(cfg, s, pk), Elems(sel.selected) + Elems(sel.gone))
            && CutOk(law, Cut(cfg, s, pk), pk, sel)
            && Sums(s.items, s.partitions[pk].pending, sel) && Splits(s.partitions[pk].pending, sel)
            && BatchFits(cfg, cfg.maxBatchSize, s.items, sel)
            && WithinLimits(cfg, s.items, s.partitions[pk])
  {
    hide ItemsOk, QueuesOk, BatchesOk, WaitersOk, DedupOk, CountersOk, ConfigValid, Select, Splits, Maximal,
      WithinLimits, Sums, LawOk, Fates, CutOk, CountOk;
    var p := s.partitions[pk];
    var size := MaxBatchSize(cfg, s);
    var sel := Select(cfg, size, s.items, p.pending);
    QueueKnown(cfg, s, pk);
    EffectiveBounds(cfg, s);
    SelectSpec(cfg, size, s.items, p.pending);
    CutCore(cfg, s, pk, sel);
    CutReady(cfg, law, s, pk, sel);
  }

  lemma {:induction false} RequestIds(cfg: Config, s: State, ids: seq<nat>)
    requires forall id :: id in ids ==> id in s.items && s.items[id].id == id && id >= 1
    ensures |RequestFor(s, ids)| == |ids|
    ensures forall i :: 0 <= i < |ids| ==> RequestFor(s, ids)[i].id == ids[i] && ItemValid(RequestFor(s, ids)[i])
                                           && RequestFor(s, ids)[i].key == s.items[ids[i]].key
  {
    if ids != [] {
      assert ids[|ids| - 1] in ids;
      RequestIds(cfg, s, ids[..|ids| - 1]);
    }
  }

  /** The request built from a selection is always accepted. */
  lemma RequestAccepted(cfg: Config, s: State, X: set<nat>, ids: seq<nat>)
    requires ItemsOk(cfg, s, X) && ids != [] && Distinct(ids) && forall id :: id in ids ==> id in s.items
    ensures RequestValid(RequestFor(s, ids))
  {
    hide HeldOk, CallerOf;
    forall id | id in ids ensures s.items[id].id == id && id >= 1 {
      assert ItemOk(cfg, s, X, id);
    }
    RequestIds(cfg, s, ids);
    assert ItemIds(RequestFor(s, ids)) == ids;
  }

  lemma StillPicked(s: State, s': State, pk: string, gone: seq<nat>, id: nat)
    requires Outside(s, s', gone) && Picked(s, pk, id) && id !in gone
    ensures Picked(s', pk, id) && s'.items[id] == s.items[id]
  {
    assert id !in Elems(gone);
    CountFrame(s.waiters, s'.waiters, s.items[id].waiters);
  }

  /** What the teardown of oversized items leaves for the batch. */
  lemma StillStartable(cfg: Config, law: Law, s: State, s1: State, s2: State, pk: string, sel: Selection)
    requires Outside(s1, s2, sel.gone) && CutOk(law, s1, pk, sel) && s1.items == s.items
    requires s1.activeProvider == s.activeProvider
    requires pk in s.partitions && sel.selected != []
    requires Sums(s.items, s.partitions[pk].pending, sel)
    requires BatchFits(cfg, cfg.maxBatchSize, s.items, sel) && s.activeProvider < cfg.maxConcurrency
    ensures Startable(cfg, s2, pk, sel)
    ensures SameSizes(s.items, s2.items, sel.remaining)
    ensures s2.partitions[pk].pending == s1.partitions[pk].pending
  {
    hide CountOk, FinishReady;
    forall id | id in sel.selected ensures Picked(s2, pk, id) && id in s.items && s2.items[id] == s.items[id] {
      assert Picked(s1, pk, id);
      StillPicked(s1, s2, pk, sel.gone, id);
    }
    hide Loose;
    TotalFrame(s.items, s2.items, Weight, sel.selected);
    TotalFrame(s.items, s2.items, Bytes, sel.selected);
    assert Total(s2.items, Weight, []) == 0 && Total(s2.items, Bytes, []) == 0;
    forall id | id in sel.remaining ensures id in s2.items && s2.items[id] == s.items[id] {
      assert id !in Elems(sel.gone);
    }
  }

  lemma LimitsAfterStart(cfg: Config, s: State, s2: State, pk: string, sel: Selection)
    requires pk in s.partitions && pk in s2.partitions
    requires WithinLimits(cfg, s.items, s.partitions[pk]) && Sums(s.items, s.partitions[pk].pending, sel)
    requires s2.partitions[pk].pending == sel.remaining && Splits(s.partitions[pk].pending, sel)
    requires s2.partitions[pk].bytes == s.partitions[pk].bytes && s2.partitions[pk].weight == s.partitions[pk].weight
    requires SameSizes(s.items, s2.items, sel.remaining)
    ensures WithinLimits(cfg, s2.items,
      s2.partitions[pk].(bytes := s2.partitions[pk].bytes - sel.bytes, weight := s2.partitions[pk].weight - sel.weight))
  {
    SubseqShorter(sel.remaining, s.partitions[pk].pending);
    hide Splits;
    TotalFrame(s.items, s2.items, Weight, sel.remaining);
    TotalFrame(s.items, s2.items, Bytes, sel.remaining);
  }

  /** What finishing an item leaves alone. */
  ghost predicate Apart(s: State, s': State, pk: string) {
    && pk in s.partitions && pk in s'.partitions
    && s'.partitions[pk].bytes == s.partitions[pk].bytes && s'.partitions[pk].weight == s.partitions[pk].weight
    && s'.blocked == s.blocked && SameBarriers(s, s') && s'.dyn == s.dyn
  }

  lemma FinishApart(s: State, pk: string, id: nat, r: Option<Delivery>)
    requires pk in s.partitions
    ensures Apart(s, FinishItem(s, pk, id, r), pk)
    ensures FinishItem(s, pk, id, r).partitions[pk].failed == s.partitions[pk].failed
  {
  }

  lemma {:induction false} FinishAllApart(s: State, pk: string, ids: seq<nat>, rs: seq<Option<Delivery>>)
    requires |ids| == |rs| && pk in s.partitions
    ensures Apart(s, FinishAll(s, pk, ids, rs), pk)
    ensures FinishAll(s, pk, ids, rs).partitions[pk].failed == s.partitions[pk].failed
  {
    hide FinishItem;
    if ids != [] {
      var n := |ids| - 1;
      FinishAllApart(s, pk, ids[..n], rs[..n]);
      FinishApart(FinishAll(s, pk, ids[..n], rs[..n]), pk, ids[n], rs[n]);
    }
  }

  /** The state between teardown and the provider call, with everything the call needs. */
  lemma TeardownKeeps(cfg: Config, law: Law, s: State, pk: string)
    requires ConfigValid(cfg) && LawOk(law) && Core(cfg, s, {}) && pk in s.partitions
    requires s.activeProvider < MaxConcurrency(cfg, s)
    ensures var sel := Select(cfg, MaxBatchSize(cfg, s), s.items, s.partitions[pk].pending);
            |sel.gone| == |sel.results| &&
            var s2 := FinishAll(Cut(cfg, s, pk), pk, sel.gone, sel.results);
            && Core(cfg, s2, Elems(sel.selected)) && Progress(law, s, s2)
            && pk in s2.partitions && Apart(s, s2, pk)
            && (sel.selected != [] ==>
                  && Startable(cfg, s2, pk, sel)
                  && WithinLimits(cfg, s2.items,
                    s2.partitions[pk].(bytes := s2.partitions[pk].bytes - sel.bytes,
                      weight := s2.partitions[pk].weight - sel.weight)))
  {
    hide ItemsOk, QueuesOk, BatchesOk, WaitersOk, DedupOk, CountersOk, ConfigValid, LawOk, Select, FinishAll, Progress,
      Sums, Splits,
      BatchFits, WithinLimits, Startable, Picked, FinishReady, Outside;
    EffectiveBounds(cfg, s);
    CutKeeps(cfg, law, s, pk);
    var sel := Select(cfg, MaxBatchSize(cfg, s), s.items, s.partitions[pk].pending);
    var s1 := Cut(cfg, s, pk);
    var s2 := FinishAll(s1, pk, sel.gone, sel.results);
    var X := Elems(sel.selected) + Elems(sel.gone);
    FinishAllKeeps(cfg, law, s1, X, pk, sel.gone, sel.results);
    assert X - Elems(sel.gone) == Elems(sel.selected);
    SameProgress(law, s, s1, s2);
    FinishAllApart(s1, pk, sel.gone, sel.results);
    if sel.selected != [] {
      StillStartable(cfg, law, s, s1, s2, pk, sel);
      LimitsAfterStart(cfg, s, s2, pk, sel);
    }
  }

  lemma StartApart(s: State, pk: string, sel: Selection)
    requires pk in s.partitions
    ensures var s' := StartBatch(s, pk, sel); s'.blocked == s.blocked && SameBarriers(s, s') && s'.dyn == s.dyn
  {
  }

  lemma DispatchKeeps(cfg: Config, law: Law, s: State, pk: string)
    requires ConfigValid(cfg) && LawOk(law) && Core(cfg, s, {}) && pk in s.partitions
    requires s.activeProvider < MaxConcurrency(cfg, s)
    ensures var s' := Dispatch(cfg, s, pk);
            && Core(cfg, s', {}) && Progress(law, s, s')
            && s'.blocked == s.blocked && SameBarriers(s, s') && s'.dyn == s.dyn
  {
    hide QueuesOk, ItemsOk, BatchesOk, WaitersOk, DedupOk, CountersOk, ConfigValid, LawOk, Select, FinishAll, Progress,
      WithinLimits, Startable, StartBatch;
    var sel := Select(cfg, MaxBatchSize(cfg, s), s.items, s.partitions[pk].pending);
    TeardownKeeps(cfg, law, s, pk);
    var s2 := FinishAll(Cut(cfg, s, pk), pk, sel.gone, sel.results);
    if sel.selected == [] {
      assert Elems(sel.selected) == {};
    } else {
      SelectedKnown(cfg, s2, pk, sel);
      RequestAccepted(cfg, s2, Elems(sel.selected), sel.selected);
      StartKeeps(cfg, law, s2, pk, sel);
      StartApart(s2, pk, sel);
      ProgressTrans(law, s, s2, StartBatch(s2, pk, sel));
    }
  }

  lemma SelectedKnown(cfg: Config, s: State, pk: string, sel: Selection)
    requires Startable(cfg, s, pk, sel)
    ensures Distinct(sel.selected) && forall id :: id in sel.selected ==> id in s.items
  {
    forall id | id in sel.selected ensures id in s.items {
      assert Loose(s, id);
    }
  }
}
