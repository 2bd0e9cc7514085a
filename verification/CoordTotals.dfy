/**
 What the running totals of a partition mean over every run. They count what is queued, and with it
 every item given up as too large since the partition was created, because giving one up does not
 subtract it. So they are exact if and only if none has been given up.
 */
module CoordTotals {
  import opened Seqs
  import opened Wire
  import opened StringOrder
  import opened CoordModel
  import opened CoordInvariant
  import opened CoordSteps
  import opened CoordSubmit
  import opened CoordCancel
  import opened CoordDispatch
  import opened CoordTurns
  import opened CoordTheorems
  import opened CoordProperties
  import opened CoordTimer

  // ---------------------------------------------------------------- the books

  /** The total size of items that are no longer there. */
  function Lost(m: Measure, failed: seq<Item>): (n: nat) {
    if failed == [] then 0 else Lost(m, failed[..|failed| - 1]) + SizeOf(m, failed[|failed| - 1])
  }

  /** The totals are what is queued and what was given up, and only oversized items were given up. */
  ghost predicate BooksOk(cfg: Config, items: map<nat, Item>, p: Partition) {
    && p.bytes == Total(items, Bytes, p.pending) + Lost(Bytes, p.failed)
    && p.weight == Total(items, Weight, p.pending) + Lost(Weight, p.failed)
    && forall i :: 0 <= i < |p.failed| ==> TooLarge(cfg, p.failed[i])
  }

  ghost predicate Books(cfg: Config, s: State) {
    forall pk :: pk in s.partitions ==> BooksOk(cfg, s.items, s.partitions[pk])
  }

  lemma {:induction false} LostConcat(m: Measure, a: seq<Item>, b: seq<Item>)
    ensures Lost(m, a + b) == Lost(m, a) + Lost(m, b)
  {
    if b == [] {
      assert a + b == a;
    } else {
      var n := |b| - 1;
      LostConcat(m, a, b[..n]);
      assert (a + b)[..|a| + n] == a + b[..n];
    }
  }

  lemma {:induction false} LostRecords(items: map<nat, Item>, m: Measure, ids: seq<nat>)
    ensures Lost(m, Records(items, ids)) == Total(items, m, ids)
  {
    if ids != [] {
      var n := |ids| - 1;
      LostRecords(items, m, ids[..n]);
      var before := Records(items, ids[..n]);
      if ids[n] in items {
        assert (before + [items[ids[n]]])[..|before|] == before;
      } else {
        assert before + [] == before;
      }
    }
  }

  lemma {:induction false} RecordsOf(items: map<nat, Item>, ids: seq<nat>, i: nat)
    requires i < |Records(items, ids)|
    ensures exists k :: 0 <= k < |ids| && ids[k] in items && Records(items, ids)[i] == items[ids[k]]
  {
    var n := |ids| - 1;
    if i < |Records(items, ids[..n])| {
      RecordsOf(items, ids[..n], i);
      var k :| 0 <= k < n && ids[..n][k] in items && Records(items, ids[..n])[i] == items[ids[..n][k]];
      assert ids[..n][k] == ids[k];
    }
  }

  /** Something oversized weighs or measures something. */
  lemma LostSomething(cfg: Config, failed: seq<Item>)
    requires forall i :: 0 <= i < |failed| ==> TooLarge(cfg, failed[i])
    ensures Lost(Bytes, failed) + Lost(Weight, failed) == 0 <==> failed == []
  {
    if failed != [] {
      assert TooLarge(cfg, failed[|failed| - 1]);
    }
  }

  lemma BooksDecide(cfg: Config, items: map<nat, Item>, p: Partition)
    requires BooksOk(cfg, items, p)
    ensures ExactTotals(items, p) <==> p.failed == []
  {
    LostSomething(cfg, p.failed);
  }

  // ---------------------------------------------------------------- frames

  ghost predicate SameAccount(p: Partition, p': Partition) {
    p'.pending == p.pending && p'.bytes == p.bytes && p'.weight == p.weight && p'.failed == p.failed
  }

  /** The state moved on lawfully, so items that are still queued kept their sizes. */
  ghost predicate Follows(cfg: Config, s: State, s': State) {
    Core(cfg, s, {}) && Core(cfg, s', {}) && Ages(s, s')
  }

  lemma QueuedBefore(cfg: Config, s: State, pk: string, id: nat)
    requires Core(cfg, s, {}) && pk in s.partitions && id in s.partitions[pk].pending
    ensures id in s.items && id <= s.requestSeq
  {
    hide HeldOk, CallerOf, IndexOk, WithinLimits, BatchesOk, WaitersOk, DedupOk, CountersOk;
    assert QueueOk(cfg, s, pk) && ItemOk(cfg, s, {}, id);
  }

  /** What was queued before and is queued still has the same total size. */
  lemma SameTotals(cfg: Config, s: State, s': State, pk: string, q: string, ids: seq<nat>)
    requires Follows(cfg, s, s') && pk in s.partitions && q in s'.partitions
    requires forall id :: id in ids ==> id in s.partitions[pk].pending && id in s'.partitions[q].pending
    ensures Total(s'.items, Bytes, ids) == Total(s.items, Bytes, ids)
    ensures Total(s'.items, Weight, ids) == Total(s.items, Weight, ids)
  {
    hide Core;
    forall id | id in ids
      ensures id in s.items && id in s'.items
      ensures s'.items[id].weight == s.items[id].weight && s'.items[id].bytes == s.items[id].bytes
    {
      QueuedBefore(cfg, s, pk, id);
      QueuedBefore(cfg, s', q, id);
    }
    TotalFrame(s.items, s'.items, Bytes, ids);
    TotalFrame(s.items, s'.items, Weight, ids);
  }

  lemma AccountKept(cfg: Config, s: State, s': State, pk: string)
    requires Follows(cfg, s, s') && pk in s.partitions && pk in s'.partitions
    requires SameAccount(s.partitions[pk], s'.partitions[pk]) && BooksOk(cfg, s.items, s.partitions[pk])
    ensures BooksOk(cfg, s'.items, s'.partitions[pk])
  {
    hide Follows, Total, Lost;
    SameTotals(cfg, s, s', pk, pk, s.partitions[pk].pending);
  }

  /** A step that leaves every account but one alone keeps the books if it keeps that one. */
  lemma BooksKept(cfg: Config, s: State, s': State, except: set<string>)
    requires Follows(cfg, s, s') && Books(cfg, s)
    requires forall q :: q in s'.partitions && q !in except ==>
      q in s.partitions && SameAccount(s.partitions[q], s'.partitions[q])
    requires forall q :: q in s'.partitions && q in except ==> BooksOk(cfg, s'.items, s'.partitions[q])
    ensures Books(cfg, s')
  {
    hide Follows, BooksOk;
    forall q | q in s'.partitions ensures BooksOk(cfg, s'.items, s'.partitions[q]) {
      if q !in except {
        assert BooksOk(cfg, s.items, s.partitions[q]);
        hide SameAccount;
        AccountKept(cfg, s, s', q);
      }
    }
  }

  lemma SameState(cfg: Config, s: State, s': State)
    requires Books(cfg, s) && s'.items == s.items
    requires forall q :: q in s'.partitions ==> q in s.partitions && s'.partitions[q] == s.partitions[q]
    ensures Books(cfg, s')
  {
    hide BooksOk;
  }

  // ---------------------------------------------------------------- submissions

  /** A queue with one item more, its totals raised by that item. */
  ghost predicate Gained(items: map<nat, Item>, p: Partition, p': Partition, id: nat) {
    && id in items && p'.pending == p.pending + [id] && p'.failed == p.failed
    && p'.bytes == p.bytes + items[id].bytes && p'.weight == p.weight + items[id].weight
  }

  lemma GainedBooks(cfg: Config, s: State, s': State, pk: string, id: nat)
    requires Follows(cfg, s, s') && pk in s.partitions && pk in s'.partitions
    requires Gained(s'.items, s.partitions[pk], s'.partitions[pk], id) && BooksOk(cfg, s.items, s.partitions[pk])
    ensures BooksOk(cfg, s'.items, s'.partitions[pk])
  {
    hide Follows, Total, Lost, TooLarge;
    var pending := s.partitions[pk].pending;
    SameTotals(cfg, s, s', pk, pk, pending);
    TotalAppend(s'.items, Bytes, pending, id);
    TotalAppend(s'.items, Weight, pending, id);
  }

  lemma EnqueueGains(s: State, req: SubmitReq, at: Time)
    requires req.part in s.partitions && req.waiter in s.waiters && s.waiters[req.waiter].admit == []
    ensures var s' := Enqueue(s, req, at);
            && s'.partitions.Keys == s.partitions.Keys
            && (forall q :: q in s.partitions && q != req.part ==> s'.partitions[q] == s.partitions[q])
            && Gained(s'.items, s.partitions[req.part], s'.partitions[req.part], s.requestSeq + 1)
  {
    EnqueueFields(s, req, at);
    hide Enqueue, Bucket;
  }

  lemma EnqueueBooks(cfg: Config, s: State, req: SubmitReq, at: Time)
    requires req.part in s.partitions && req.waiter in s.waiters && s.waiters[req.waiter].admit == []
    requires Follows(cfg, s, Enqueue(s, req, at)) && Books(cfg, s)
    ensures Books(cfg, Enqueue(s, req, at))
  {
    hide Enqueue, Follows, BooksOk, Gained;
    EnqueueGains(s, req, at);
    GainedBooks(cfg, s, Enqueue(s, req, at), req.part, s.requestSeq + 1);
    BooksKept(cfg, s, Enqueue(s, req, at), {req.part});
  }

  lemma JoinBooks(cfg: Config, s: State, req: SubmitReq, id: nat)
    requires req.part in s.partitions && id in s.items && req.waiter in s.waiters && s.waiters[req.waiter].admit == []
    requires Follows(cfg, s, JoinItem(s, req, id)) && Books(cfg, s)
    ensures Books(cfg, JoinItem(s, req, id))
  {
    hide JoinItem, Follows, BooksOk;
    JoinFields(s, req, id);
    BooksKept(cfg, s, JoinItem(s, req, id), {});
  }

  lemma OverflowBooks(cfg: Config, s: State, req: SubmitReq, fault: Fault)
    requires Books(cfg, s)
    ensures Books(cfg, Overflow(cfg, s, req, fault))
  {
    hide BooksOk;
  }

  lemma PlaceBooks(cfg: Config, law: Law, s: State, req: SubmitReq, at: Time, rest: seq<SubmitReq>)
    requires ConfigValid(cfg) && Core(cfg, s, {}) && Placeable(cfg, s, req) && Books(cfg, s)
    requires ParkedOk(cfg, s.waiters, s.blocked + [req] + rest)
    ensures Books(cfg, Place(cfg, s, req, at))
  {
    hide ConfigValid, Core, ParkedOk, Evolves, Ages, Flies, Books, FindEqual, OverLimits, JoinItem, Enqueue, Overflow,
      SignalsGrow, SameBarriers;
    PlaceKeeps(cfg, law, s, req, at, rest);
    var p := s.partitions[req.part];
    var equal := if cfg.dedup then FindEqual(cfg, s.items, Bucket(p.active, req.hash), req.key) else None;
    var over := OverLimits(cfg, p, req);
    if equal.Some? && equal.value in s.items {
      JoinBooks(cfg, s, req, equal.value);
    } else if over.Some? {
      OverflowBooks(cfg, s, req, QueueFull(over.value));
    } else {
      EnqueueBooks(cfg, s, req, at);
    }
  }

  lemma FreshBooks(cfg: Config, s: State, pk: string)
    requires Books(cfg, s)
    ensures Books(cfg, SetPartition(s, pk, FRESH_PARTITION))
  {
  }

  lemma SubmitBooks(cfg: Config, law: Law, s: State, req: SubmitReq, at: Time, rest: seq<SubmitReq>)
    requires ConfigValid(cfg) && Core(cfg, s, {}) && Books(cfg, s)
    requires ParkedOk(cfg, s.waiters, s.blocked + [req] + rest)
    ensures Books(cfg, HandleSubmit(cfg, s, req, at))
  {
    hide Core, ParkedOk, ConfigValid, Place, Books, Overflow, Reply, FRESH_PARTITION;
    NextParked(cfg, s.waiters, s.blocked, req, rest);
    ReplyBooks(cfg, s, req.waiter, Refused(EngineClosing));
    OverflowBooks(cfg, s, req, PartitionLimit);
    if !s.closing {
      if req.part in s.partitions {
        PlaceBooks(cfg, law, s, req, at, rest);
      } else if !(cfg.limits.maxPartitions > 0 && |s.partitions| >= cfg.limits.maxPartitions) {
        NewPartitionKeeps(cfg, s, req.part);
        FreshBooks(cfg, s, req.part);
        PlaceBooks(cfg, law, SetPartition(s, req.part, FRESH_PARTITION), req, at, rest);
      }
    }
  }

  lemma ReplyBooks(cfg: Config, s: State, w: nat, a: Admission)
    requires Books(cfg, s)
    ensures Books(cfg, Reply(s, w, a))
  {
    hide BooksOk;
  }

  lemma {:induction false} ResubmitBooks(cfg: Config, law: Law, s: State, reqs: seq<SubmitReq>, at: Time,
                                         rest: seq<SubmitReq>)
    requires ConfigValid(cfg) && Core(cfg, s, {}) && s.blocked == [] && Books(cfg, s)
    requires ParkedOk(cfg, s.waiters, reqs + rest)
    ensures Books(cfg, Resubmit(cfg, s, reqs, at))
  {
    hide Core, ConfigValid, ParkedOk, Progress, HandleSubmit, Books;
    if reqs != [] {
      var n := |reqs| - 1;
      assert reqs[..n] + ([reqs[n]] + rest) == reqs + rest;
      ResubmitKeeps(cfg, law, s, reqs[..n], at, [reqs[n]] + rest);
      ResubmitBooks(cfg, law, s, reqs[..n], at, [reqs[n]] + rest);
      var t := Resubmit(cfg, s, reqs[..n], at);
      assert t.blocked + ([reqs[n]] + rest) == t.blocked + [reqs[n]] + rest;
      SubmitBooks(cfg, law, t, reqs[n], at, rest);
    }
  }

  lemma ParkedAside(cfg: Config, s: State)
    requires Books(cfg, s)
    ensures Books(cfg, s.(blocked := []))
  {
    hide BooksOk;
  }

  lemma RetryBooks(cfg: Config, law: Law, s: State, at: Time)
    requires ConfigValid(cfg) && Core(cfg, s, {}) && ParkedOk(cfg, s.waiters, s.blocked) && Books(cfg, s)
    ensures Books(cfg, RetryBlocked(cfg, s, at))
  {
    hide ConfigValid, Core, ParkedOk, Books, Progress, Resubmit;
    ParkKeeps(cfg, law, s, []);
    ParkedAside(cfg, s);
    assert s.blocked + [] == s.blocked;
    ResubmitBooks(cfg, law, s.(blocked := []), s.blocked, at, []);
  }

  // ---------------------------------------------------------------- cancellation

  lemma RetiredAccounts(s: State, pk: string)
    ensures forall q :: q in MaybeRetire(s, pk).partitions ==>
                          q in s.partitions && MaybeRetire(s, pk).partitions[q] == s.partitions[q]
  {
  }

  lemma RemovedAccount(s: State, pk: string, id: nat)
    requires pk in s.partitions && id in s.items && s.items[id].id == id
    ensures var s' := RemovePending(s, pk, id);
            && (forall q :: q in s'.partitions ==> q in s.partitions)
            && (forall q :: q in s'.partitions && q != pk ==> SameAccount(s.partitions[q], s'.partitions[q]))
            && (pk in s'.partitions ==> SameAccount(Without(s.partitions[pk], s.items[id]), s'.partitions[pk]))
  {
    hide DropItem, RemoveFirst, MaybeRetire;
    var t := SetPartition(s, pk, Without(s.partitions[pk], s.items[id]));
    DropFields(t, pk, id);
    RetiredAccounts(DropItem(t, pk, id), pk);
    assert RemovePending(s, pk, id) == MaybeRetire(DropItem(t, pk, id), pk);
  }

  lemma CancelledAccount(cfg: Config, s: State, s': State, pk: string, id: nat)
    requires Follows(cfg, s, s') && pk in s.partitions && pk in s'.partitions && id in s.items
    requires id in s.partitions[pk].pending && Distinct(s.partitions[pk].pending)
    requires var p, p', it := s.partitions[pk], s'.partitions[pk], s.items[id];
             && p'.pending == RemoveFirst(p.pending, id) && p'.bytes == p.bytes - it.bytes
             && p'.weight == p.weight - it.weight && p'.failed == p.failed
    requires BooksOk(cfg, s.items, s.partitions[pk])
    ensures BooksOk(cfg, s'.items, s'.partitions[pk])
  {
    hide Follows, Total, Lost;
    var pending := s.partitions[pk].pending;
    TotalRemove(s.items, Bytes, pending, id);
    TotalRemove(s.items, Weight, pending, id);
    RemoveFirstDistinct(pending, id);
    SameTotals(cfg, s, s', pk, pk, RemoveFirst(pending, id));
  }

  lemma StillQueued(cfg: Config, s: State, id: nat)
    requires Core(cfg, s, {}) && id in s.items && !s.items[id].dispatched
    ensures var pk := s.items[id].part;
            && pk in s.partitions && id in s.partitions[pk].pending && Distinct(s.partitions[pk].pending)
            && s.items[id].id == id
  {
    hide BatchesOk, WaitersOk, DedupOk, CountersOk, IndexOk, WithinLimits, CallerOf, CountOk;
    assert ItemOk(cfg, s, {}, id) && QueueOk(cfg, s, s.items[id].part);
  }

  lemma RemoveBooks(cfg: Config, s: State, pk: string, w: nat)
    requires Core(cfg, s, {}) && Books(cfg, s) && Attached(s, pk, w) && pk in s.partitions
    requires !s.items[s.waiters[w].home].dispatched
    requires Follows(cfg, s, RemovePending(Detach(s, pk, w), pk, s.waiters[w].home))
    ensures Books(cfg, RemovePending(Detach(s, pk, w), pk, s.waiters[w].home))
  {
    hide Core, Follows, BooksOk, RemovePending, Detach, RemoveFirst;
    var id, s1 := s.waiters[w].home, Detach(s, pk, w);
    var s' := RemovePending(s1, pk, id);
    DetachFields(s, pk, w);
    StillQueued(cfg, s, id);
    RemovedAccount(s1, pk, id);
    if pk in s'.partitions {
      CancelledAccount(cfg, s, s', pk, id);
    }
    BooksKept(cfg, s, s', {pk});
  }

  lemma DetachAccounts(s: State, pk: string, w: nat)
    requires Attached(s, pk, w) && pk in s.partitions
    ensures var s' := Detach(s, pk, w);
            && s'.partitions.Keys == s.partitions.Keys && s'.items.Keys == s.items.Keys && s.waiters[w].home in s.items
            && s'.items[s.waiters[w].home].dispatched == s.items[s.waiters[w].home].dispatched
            && (forall q :: q in s'.partitions ==> SameAccount(s.partitions[q], s'.partitions[q]))
            && forall batch :: Abandon(s', batch).partitions == s'.partitions
  {
  }

  lemma CancelBooks(cfg: Config, law: Law, s: State, pk: string, w: nat)
    requires Core(cfg, s, {}) && Books(cfg, s)
    ensures Books(cfg, HandleCancel(s, pk, w))
  {
    hide Core, Evolves, Ages, Flies, BooksOk, RemovePending, Detach, Abandon, Attached, SignalsGrow, SameBarriers,
      SameAccount;
    CancelKeeps(cfg, law, s, pk, w);
    if Attached(s, pk, w) && pk in s.partitions {
      AttachedKnown(s, pk, w);
      var id, s1, s' := s.waiters[w].home, Detach(s, pk, w), HandleCancel(s, pk, w);
      DetachAccounts(s, pk, w);
      if s1.items[id].activeWaiters == 0 && !s1.items[id].dispatched {
        RemoveBooks(cfg, s, pk, w);
      } else {
        BooksKept(cfg, s, s', {});
      }
    }
  }

  // ---------------------------------------------------------------- scheduling

  lemma {:induction false} GoneTooLarge(cfg: Config, s: State, failed: seq<Item>, sel: Selection)
    requires forall i :: 0 <= i < |failed| ==> TooLarge(cfg, failed[i])
    requires |sel.gone| == |sel.results| && forall i :: 0 <= i < |sel.gone| ==> AllTooLarge(cfg, s, sel, i)
    ensures var all := failed + Records(s.items, sel.gone); forall i :: 0 <= i < |all| ==> TooLarge(cfg, all[i])
  {
    hide Records, TooLarge;
    var gone := Records(s.items, sel.gone);
    forall i | 0 <= i < |gone| ensures TooLarge(cfg, gone[i]) {
      RecordsOf(s.items, sel.gone, i);
      var k :| 0 <= k < |sel.gone| && sel.gone[k] in s.items && gone[i] == s.items[sel.gone[k]];
      assert AllTooLarge(cfg, s, sel, k);
    }
  }

  /** A queue after a selection pass: what was given up moved from the queue to the record. */
  lemma SplitBooks(cfg: Config, s: State, items': map<nat, Item>, p: Partition, p': Partition, sel: Selection)
    requires BooksOk(cfg, s.items, p) && Sums(s.items, p.pending, sel) && SameSizes(s.items, items', sel.remaining)
    requires p'.pending == sel.remaining && p'.bytes == p.bytes - sel.bytes && p'.weight == p.weight - sel.weight
    requires p'.failed == p.failed + Records(s.items, sel.gone)
    requires |sel.gone| == |sel.results| && forall i :: 0 <= i < |sel.gone| ==> AllTooLarge(cfg, s, sel, i)
    ensures BooksOk(cfg, items', p')
  {
    hide Total, Lost, Records, TooLarge, AllTooLarge;
    TotalFrame(s.items, items', Bytes, sel.remaining);
    TotalFrame(s.items, items', Weight, sel.remaining);
    hide SameSizes;
    LostConcat(Bytes, p.failed, Records(s.items, sel.gone));
    LostConcat(Weight, p.failed, Records(s.items, sel.gone));
    LostRecords(s.items, Bytes, sel.gone);
    LostRecords(s.items, Weight, sel.gone);
    GoneTooLarge(cfg, s, p.failed, sel);
  }

  lemma DispatchAccount(cfg: Config, law: Law, s: State, pk: string)
    requires ConfigValid(cfg) && LawOk(law) && Core(cfg, s, {}) && pk in s.partitions && s.partitions[pk].pending != []
    requires s.activeProvider < MaxConcurrency(cfg, s) && BooksOk(cfg, s.items, s.partitions[pk])
    ensures pk in Dispatch(cfg, s, pk).partitions
    ensures BooksOk(cfg, Dispatch(cfg, s, pk).items, Dispatch(cfg, s, pk).partitions[pk])
  {
    hide Core, ConfigValid, LawOk, Dispatch, Select, BooksOk, Records, Splits, FinishAll, RequestFor, Cut,
      RequestValid, Sums, AllTooLarge;
    DispatchTotals(cfg, law, s, pk);
    DispatchSplits(cfg, law, s, pk);
    var s' := Dispatch(cfg, s, pk);
    var sel := Select(cfg, MaxBatchSize(cfg, s), s.items, s.partitions[pk].pending);
    SplitBooks(cfg, s, s'.items, s.partitions[pk], s'.partitions[pk], sel);
  }

  lemma DispatchBooks(cfg: Config, law: Law, s: State, pk: string)
    requires ConfigValid(cfg) && LawOk(law) && Core(cfg, s, {}) && pk in s.partitions && s.partitions[pk].pending != []
    requires s.activeProvider < MaxConcurrency(cfg, s) && Books(cfg, s)
    ensures Books(cfg, Dispatch(cfg, s, pk))
  {
    hide ConfigValid, LawOk, Core, Dispatch, BooksOk, Evolves, Ages, Flies, Quiet;
    DispatchMoves(cfg, law, s, pk);
    DispatchElsewhere(cfg, law, s, pk);
    DispatchAccount(cfg, law, s, pk);
    BooksKept(cfg, s, Dispatch(cfg, s, pk), {pk});
  }

  lemma {:induction false} LoopBooks(cfg: Config, law: Law, s: State, pk: string, force: bool, now: Time)
    requires ConfigValid(cfg) && LawOk(law) && Core(cfg, s, {}) && Books(cfg, s)
    ensures Books(cfg, DispatchLoop(cfg, s, pk, force, now))
    decreases PendingCount(s, pk)
  {
    hide ConfigValid, LawOk, Core, Progress, Quiet, Dispatch, ShouldDispatch, Books;
    PruneIdle(cfg, s, pk);
    if PendingCount(s, pk) != 0 && s.activeProvider < MaxConcurrency(cfg, s)
       && ShouldDispatch(cfg, s, s.partitions[pk], force, now).Some?
    {
      DispatchShrinks(cfg, s, pk);
      DispatchMoves(cfg, law, s, pk);
      DispatchBooks(cfg, law, s, pk);
      LoopBooks(cfg, law, Dispatch(cfg, s, pk), pk, force, now);
    }
  }

  lemma {:induction false} AllBooks(cfg: Config, law: Law, s: State, keys: seq<string>, force: bool, now: Time)
    requires ConfigValid(cfg) && LawOk(law) && Core(cfg, s, {}) && Books(cfg, s)
    ensures Books(cfg, ScheduleAll(cfg, s, keys, force, now))
  {
    hide ConfigValid, LawOk, Core, Progress, Quiet, DispatchLoop, BooksOk;
    if keys != [] {
      var n := |keys| - 1;
      AllMoves(cfg, law, s, keys[..n], force, now);
      AllBooks(cfg, law, s, keys[..n], force, now);
      var t := ScheduleAll(cfg, s, keys[..n], force, now);
      LoopBooks(cfg, law, t, keys[n], force, now);
      SameState(cfg, DispatchLoop(cfg, t, keys[n], force, now),
        MaybeRetire(DispatchLoop(cfg, t, keys[n], force, now), keys[n]));
    }
  }

  lemma ScheduleBooks(cfg: Config, law: Law, s: State, force: bool, now: Time)
    requires ConfigValid(cfg) && LawOk(law) && Core(cfg, s, {}) && Books(cfg, s)
    ensures Books(cfg, Schedule(cfg, s, force, now))
  {
    hide ConfigValid, LawOk, Core, ScheduleAll, EarliestDue, BooksOk;
    AllBooks(cfg, law, s, SortedKeys(s.partitions.Keys), force, now);
  }

  // ---------------------------------------------------------------- completion

  lemma {:induction false} FinishAccounts(s: State, pk: string, ids: seq<nat>, rs: seq<Option<Delivery>>)
    requires |ids| == |rs|
    ensures var s' := FinishAll(s, pk, ids, rs);
            forall q :: q in s'.partitions ==> q in s.partitions && SameAccount(s.partitions[q], s'.partitions[q])
  {
    hide FinishItem;
    if ids != [] {
      var n := |ids| - 1;
      FinishAccounts(s, pk, ids[..n], rs[..n]);
      FinishFields(FinishAll(s, pk, ids[..n], rs[..n]), pk, ids[n], rs[n]);
    }
  }

  /** The state after a batch was delivered and before parked submissions are retried. */
  ghost function Delivered(s: State, batch: nat, done: Completion): (s': State)
    requires batch in s.inflight
  {
    var b := s.inflight[batch];
    MaybeRetire(FinishAll(Taken(s, batch), b.partition, b.items, Results(done, b.items)), b.partition)
  }

  lemma DeliveredKeeps(cfg: Config, law: Law, s: State, batch: nat, done: Completion)
    requires Inv(cfg, s) && batch in s.inflight && Lawful(law, s, batch, done)
    ensures var s' := Delivered(s, batch, done);
            Follows(cfg, s, s') && ParkedOk(cfg, s'.waiters, s'.blocked)
  {
    hide Core, ParkedOk, BarriersOk, Lawful, FinishAll, Results, FinishReady, Evolves, Ages, Flies, MaybeRetire, Quiet,
      Outside;
    var b, s1, rs := s.inflight[batch], Taken(s, batch), Results(done, s.inflight[batch].items);
    CompleteReady(cfg, law, s, batch, done);
    FinishAllKeeps(cfg, law, s1, Elems(b.items), b.partition, b.items, rs);
    assert Elems(b.items) - Elems(b.items) == {};
    var s2 := FinishAll(s1, b.partition, b.items, rs);
    SameProgress(law, s, s1, s2);
    FinishAllQuiet(s1, b.partition, b.items, rs);
    RetireMoves(cfg, law, s2, b.partition);
    var s3 := MaybeRetire(s2, b.partition);
    ProgressTrans(law, s, s2, s3);
    QuietTrans(s1, s2, s3);
    ParkedQuiet(cfg, s1, s3);
  }

  lemma DeliveredBooks(cfg: Config, law: Law, s: State, batch: nat, done: Completion)
    requires Inv(cfg, s) && batch in s.inflight && Lawful(law, s, batch, done) && Books(cfg, s)
    ensures Books(cfg, Delivered(s, batch, done))
  {
    DeliveredKeeps(cfg, law, s, batch, done);
    hide Inv, Lawful, FinishAll, Results, Follows, BooksOk, SameAccount;
    var b := s.inflight[batch];
    FinishAccounts(Taken(s, batch), b.partition, b.items, Results(done, b.items));
    BooksKept(cfg, s, Delivered(s, batch, done), {});
  }

  lemma CompleteBooks(cfg: Config, law: Law, s: State, batch: nat, done: Completion, at: Time)
    requires ConfigValid(cfg) && Inv(cfg, s) && Lawful(law, s, batch, done) && Books(cfg, s)
    ensures Books(cfg, HandleComplete(cfg, s, batch, done, at))
  {
    hide ConfigValid, Core, ParkedOk, BarriersOk, Lawful, FinishAll, Results, Ages, Flies, Books, MaybeRetire,
      RetryBlocked;
    if batch in s.inflight {
      DeliveredKeeps(cfg, law, s, batch, done);
      DeliveredBooks(cfg, law, s, batch, done);
      RetryBooks(cfg, law, Delivered(s, batch, done), at);
    }
  }

  // ---------------------------------------------------------------- turns and runs

  lemma HandleBooks(cfg: Config, law: Law, s: State, e: Event)
    requires ConfigValid(cfg) && LawOk(law) && Inv(cfg, s) && Enabled(cfg, law, s, e) && Books(cfg, s)
    ensures Books(cfg, Handle(cfg, s, e))
  {
    hide ConfigValid, LawOk, Core, ParkedOk, BarriersOk, Progress, HandleSubmit, HandleCancel, HandleComplete,
      Schedule, BooksOk, Lawful, Quiet;
    match e
    case Submit(req, deadline, at) =>
      ArriveKeeps(cfg, law, s, req, deadline);
      SubmitBooks(cfg, law, Arrive(s, req, deadline), req, at, []);
    case Cancel(part, w) => CancelBooks(cfg, law, s, part, w);
    case Unblock(w) =>
    case Complete(batch, done, at) => CompleteBooks(cfg, law, s, batch, done, at);
    case Control(kind, id, at) => ControlBooks(cfg, law, s, kind, id, at);
    case TimerFired(at) =>
      TimerMoves(cfg, law, s, None);
      ScheduleBooks(cfg, law, s.(timer := None), false, at);
    case EngineCancel => SameState(cfg, s, HandleEngineCancel(s));
  }

  lemma ControlBooks(cfg: Config, law: Law, s: State, kind: ControlKind, id: nat, at: Time)
    requires ConfigValid(cfg) && LawOk(law) && Core(cfg, s, {}) && Books(cfg, s)
    ensures Books(cfg, HandleControl(cfg, s, kind, id, at))
  {
    hide ConfigValid, LawOk, ItemsOk, QueuesOk, BatchesOk, WaitersOk, DedupOk, Progress, Schedule, BooksOk;
    var s0 := if kind == Close then s.(closing := true) else s;
    OnlyControl(cfg, law, s, s0);
    ScheduleBooks(cfg, law, s0, true, at);
  }

  lemma NextBooks(cfg: Config, law: Law, s: State, step: Step)
    requires ConfigValid(cfg) && LawOk(law) && Inv(cfg, s) && StepEnabled(cfg, law, s, step) && Books(cfg, s)
    ensures Books(cfg, Next(cfg, s, step))
  {
    hide ConfigValid, LawOk, Core, ParkedOk, BarriersOk, Handle, Schedule, TryBarriers, SignalAll, Drained, BooksOk,
      Enabled, Clamped, Progress;
    if step.Loop? {
      HandleKeeps(cfg, law, s, step.e);
      HandleBooks(cfg, law, s, step.e);
      ScheduleBooks(cfg, law, Handle(cfg, s, step.e), false, step.now);
    }
  }

  lemma {:induction false} RunBooks(cfg: Config, law: Law, states: seq<State>, steps: seq<Step>, i: nat)
    requires ConfigValid(cfg) && LawOk(law) && IsRun(cfg, law, states, steps) && i < |states|
    ensures Books(cfg, states[i])
  {
    hide ConfigValid, LawOk, Inv, StepEnabled, Next, BooksOk;
    if i > 0 {
      RunInvariant(cfg, law, states, steps, i - 1);
      RunBooks(cfg, law, states, steps, i - 1);
      NextBooks(cfg, law, states[i - 1], steps[i - 1]);
    }
  }

  /**
   In every reachable state the totals of a partition exceed what it has queued by exactly the size of
   the oversized items it gave up since it was created; they are exact if and only if it gave up none.
   */
  lemma TotalsMeaning(cfg: Config, law: Law, states: seq<State>, steps: seq<Step>, i: nat, pk: string)
    requires ConfigValid(cfg) && LawOk(law) && IsRun(cfg, law, states, steps) && i < |states|
    requires pk in states[i].partitions
    ensures var p, items := states[i].partitions[pk], states[i].items;
            && p.bytes - Total(items, Bytes, p.pending) == Lost(Bytes, p.failed)
            && p.weight - Total(items, Weight, p.pending) == Lost(Weight, p.failed)
            && (forall k :: 0 <= k < |p.failed| ==> TooLarge(cfg, p.failed[k]))
            && (ExactTotals(items, p) <==> p.failed == [])
  {
    hide ConfigValid, LawOk, IsRun, Total, Lost;
    RunBooks(cfg, law, states, steps, i);
    BooksDecide(cfg, states[i].items, states[i].partitions[pk]);
  }
}
