/**
 The coordinator as the runtime runs it: one object whose handlers update its fields in place.
 `View()` is its abstract state; every handler is proved to compute the model's function of the old
 view, and a whole turn of the loop keeps the invariant.
 */
module CoordinatorClass {
  import opened Seqs
  import opened Wire
  import opened StringOrder
  import opened CoordModel
  import opened CoordInvariant
  import opened CoordSteps
  import opened CoordSubmit
  import opened CoordCancel
  import opened CoordDispatch
  import opened CoordTurns
  import opened CoordTheorems
  import M = CoordModel

  class Coordinator {
    const cfg: Config
    var partitions: map<string, Partition>
    var items: map<nat, Item>
    var waiters: map<nat, Waiter>
    var inflight: map<nat, Batch>
    var blocked: seq<SubmitReq>
    var barriers: seq<Barrier>
    var signals: map<nat, Signal>
    var activeProvider: int
    var batchSeq: nat
    var submitSeq: nat
    var requestSeq: nat
    var closing: bool
    var engineDone: bool
    var stopped: bool
    var timer: Option<Time>
    var dyn: Option<Settings>

    ghost function View(): State
      reads this
    {
      State(partitions, items, waiters, inflight, blocked, barriers, signals, activeProvider, batchSeq,
            submitSeq, requestSeq, closing, engineDone, stopped, timer, dyn)
    }

    ghost predicate Valid()
      reads this
    {
      ConfigValid(cfg) && Inv(cfg, View())
    }

    constructor (cfg: Config)
      requires ConfigValid(cfg)
      ensures Valid() && View() == INIT && this.cfg == cfg
    {
      this.cfg := cfg;
      partitions, items, waiters, inflight := map[], map[], map[], map[];
      blocked, barriers, signals := [], [], map[];
      activeProvider, batchSeq, submitSeq, requestSeq := 0, 0, 0, 0;
      closing, engineDone, stopped := false, false, false;
      timer, dyn := None, None;
      new;
      InitInv(cfg);
    }

    // -------------------------------------------------------------- delivery and teardown

    method Deliver(w: nat, r: Delivery)
      modifies this`waiters
      ensures waiters == M.Deliver(old(waiters), w, r)
    {
      if w in waiters && waiters[w].active {
        waiters := waiters[w := waiters[w].(active := false, ch := waiters[w].ch + [r])];
      }
    }

    method DeliverAll(ids: seq<nat>, r: Delivery)
      modifies this`waiters
      ensures waiters == M.DeliverAll(old(waiters), ids, r)
    {
      for i := 0 to |ids|
        invariant waiters == M.DeliverAll(old(waiters), ids[..i], r)
      {
        assert ids[..i + 1][..i] == ids[..i];
        Deliver(ids[i], r);
      }
      assert ids[..|ids|] == ids;
    }

    /** Cuts the first occurrence of an id out of a list. */
    static method Cut(ids: seq<nat>, id: nat) returns (r: seq<nat>)
      ensures r == RemoveFirst(ids, id)
    {
      var i := 0;
      while i < |ids| && ids[i] != id
        invariant 0 <= i <= |ids| && id !in ids[..i]
      {
        i := i + 1;
      }
      if i < |ids| {
        RemoveFirstAt(ids, id, i);
        r := ids[..i] + ids[i + 1..];
      } else {
        RemoveFirstAbsent(ids, id);
        r := ids;
      }
    }

    method RemoveActive(pk: string, id: nat)
      requires pk in partitions && id in items
      modifies this`partitions
      ensures partitions ==
        old(partitions)[pk := old(partitions)[pk].(active := M.RemoveActive(old(partitions)[pk].active, items[id].hash,
          id))]
    {
      var p := partitions[pk];
      var h := items[id].hash;
      var bucket := Cut(Bucket(p.active, h), id);
      if |bucket| == 0 {
        partitions := partitions[pk := p.(active := p.active - {h})];
      } else {
        partitions := partitions[pk := p.(active := p.active[h := bucket])];
      }
    }

    /** Takes an item out of the index, lowers the live count and forgets it. */
    method DropItem(pk: string, id: nat)
      modifies this`partitions, this`items
      ensures View() == M.DropItem(old(View()), pk, id)
    {
      if id in items && pk in partitions {
        RemoveActive(pk, id);
        partitions := partitions[pk := partitions[pk].(live := partitions[pk].live - 1)];
        items := items - {id};
      }
    }

    method FinishItem(pk: string, id: nat, r: Option<Delivery>)
      modifies this`partitions, this`items, this`waiters
      ensures View() == M.FinishItem(old(View()), pk, id, r)
    {
      if id in items {
        if r.Some? {
          DeliverAll(items[id].waiters, r.value);
        }
        DropItem(pk, id);
      }
    }

    method FinishAll(pk: string, ids: seq<nat>, rs: seq<Option<Delivery>>)
      requires |ids| == |rs|
      modifies this`partitions, this`items, this`waiters
      ensures View() == M.FinishAll(old(View()), pk, ids, rs)
    {
      for i := 0 to |ids|
        invariant View() == M.FinishAll(old(View()), pk, ids[..i], rs[..i])
      {
        assert ids[..i + 1][..i] == ids[..i] && rs[..i + 1][..i] == rs[..i];
        FinishItem(pk, ids[i], rs[i]);
      }
      assert ids[..|ids|] == ids && rs[..|rs|] == rs;
    }

    method MaybeRetire(pk: string)
      modifies this`partitions
      ensures View() == M.MaybeRetire(old(View()), pk)
    {
      if pk in partitions && partitions[pk].live == 0 && |partitions[pk].active| == 0 {
        partitions := partitions - {pk};
      }
    }

    method RemovePendingItem(pk: string, id: nat)
      modifies this`partitions, this`items
      ensures View() == M.RemovePending(old(View()), pk, id)
    {
      hide M.DropItem, M.MaybeRetire, RemoveFirst;
      if pk in partitions && id in items {
        var p := partitions[pk];
        var rest := Cut(p.pending, id);
        partitions := partitions[pk := p.(pending := rest, bytes := p.bytes - items[id].bytes,
          weight := p.weight - items[id].weight)];
        DropItem(pk, id);
        MaybeRetire(pk);
      }
    }

    // -------------------------------------------------------------- submissions

    method Reply(w: nat, a: Admission)
      modifies this`waiters
      ensures View() == M.Reply(old(View()), w, a)
    {
      if w in waiters {
        waiters := waiters[w := waiters[w].(admit := waiters[w].admit + [a])];
      }
    }

    method FindEqual(bucket: seq<nat>, key: Key) returns (r: Option<nat>)
      ensures r == M.FindEqual(cfg, items, bucket, key)
    {
      r := None;
      for i := 0 to |bucket|
        invariant r == M.FindEqual(cfg, items, bucket[..i], key)
      {
        assert bucket[..i + 1][..i] == bucket[..i];
        if r.None? && bucket[i] in items && cfg.equal(items[bucket[i]].key, key) {
          r := Some(bucket[i]);
        }
      }
      assert bucket[..|bucket|] == bucket;
    }

    method Overflow(req: SubmitReq, fault: Fault)
      modifies this`waiters, this`blocked
      ensures View() == M.Overflow(cfg, old(View()), req, fault)
    {
      match cfg.overflow
      case Fallback => Reply(req.waiter, RunFallback);
      case Block => blocked := blocked + [req];
      case Reject => Reply(req.waiter, Refused(fault));
    }

    /** Attaches a caller to an equal live item. */
    method JoinItem(req: SubmitReq, id: nat)
      requires req.part in partitions && req.waiter in waiters && id in items
      modifies this`partitions, this`items, this`waiters
      ensures View() == M.JoinItem(old(View()), req, id)
    {
      var p, it := partitions[req.part], items[id];
      partitions := partitions[req.part := p.(waiters := p.waiters + 1)];
      items := items[id := it.(waiters := it.waiters + [req.waiter], activeWaiters := it.activeWaiters + 1)];
      waiters := waiters[req.waiter := waiters[req.waiter].(home := id)];
      Reply(req.waiter, Admitted);
    }

    /** Queues a new item for a caller. */
    method Enqueue(req: SubmitReq, at: Time)
      requires req.part in partitions && req.waiter in waiters
      modifies this`partitions, this`items, this`waiters, this`requestSeq, this`submitSeq
      ensures View() == M.Enqueue(old(View()), req, at)
    {
      hide Bucket;
      var p := partitions[req.part];
      requestSeq := requestSeq + 1;
      submitSeq := submitSeq + 1;
      var it := Item(requestSeq, submitSeq, req.part, req.key, req.hash, req.weight, req.bytes, at, [req.waiter], 1,
        false, 0);
      items := items[it.id := it];
      waiters := waiters[req.waiter := waiters[req.waiter].(home := it.id)];
      partitions := partitions[req.part := p.(
        pending := p.pending + [it.id], active := p.active[req.hash := Bucket(p.active, req.hash) + [it.id]],
        bytes := p.bytes + req.bytes, weight := p.weight + req.weight, waiters := p.waiters + 1, live := p.live + 1)];
      Reply(req.waiter, Admitted);
    }

    method Place(req: SubmitReq, at: Time)
      requires req.part in partitions && req.waiter in waiters
      modifies this
      ensures View() == M.Place(cfg, old(View()), req, at)
    {
      hide M.JoinItem, M.Enqueue, M.Overflow, M.FindEqual, OverLimits, Bucket;
      var p := partitions[req.part];
      var equal: Option<nat> := None;
      if cfg.dedup {
        equal := FindEqual(Bucket(p.active, req.hash), req.key);
      }
      if equal.Some? && equal.value in items {
        JoinItem(req, equal.value);
        return;
      }
      var over := OverLimits(cfg, p, req);
      if over.Some? {
        Overflow(req, QueueFull(over.value));
      } else {
        Enqueue(req, at);
      }
    }

    method HandleSubmit(req: SubmitReq, at: Time)
      modifies this
      ensures View() == M.HandleSubmit(cfg, old(View()), req, at)
    {
      if req.waiter !in waiters {
        return;
      }
      if closing {
        Reply(req.waiter, Refused(EngineClosing));
        return;
      }
      if req.part !in partitions {
        if cfg.limits.maxPartitions > 0 && |partitions| >= cfg.limits.maxPartitions {
          Overflow(req, PartitionLimit);
          return;
        }
        partitions := partitions[req.part := FRESH_PARTITION];
      }
      Place(req, at);
    }

    method RetryBlocked(at: Time)
      modifies this
      ensures View() == M.RetryBlocked(cfg, old(View()), at)
    {
      hide M.HandleSubmit;
      var parked := blocked;
      blocked := [];
      ghost var s := View();
      for i := 0 to |parked|
        invariant View() == Resubmit(cfg, s, parked[..i], at)
      {
        assert parked[..i + 1][..i] == parked[..i];
        HandleSubmit(parked[i], at);
      }
      assert parked[..|parked|] == parked;
    }

    // -------------------------------------------------------------- cancellation

    /** Withdraws a parked submission whose caller gave up. */
    method Unblock(w: nat)
      modifies this`blocked
      ensures blocked == Unpark(old(blocked), w)
    {
      var i := 0;
      while i < |blocked| && blocked[i].waiter != w
        invariant 0 <= i <= |blocked|
        invariant forall k :: 0 <= k < i ==> blocked[k].waiter != w
      {
        i := i + 1;
      }
      UnparkAt(blocked, w, i);
      if i < |blocked| {
        blocked := blocked[..i] + blocked[i + 1..];
      }
    }

    /** Looks for an active caller among the indexed items of a partition, bucket by bucket. */
    method FindCaller(pk: string, w: nat) returns (found: Option<nat>)
      requires Valid() && pk in partitions
      ensures found.Some? ==>
        found.value in items && w in items[found.value].waiters && w in waiters && waiters[w].active
          && items[found.value].part == pk
      ensures found.None? ==> forall id :: id in items && items[id].part == pk ==>
        !(w in items[id].waiters && w in waiters && waiters[w].active)
    {
      hide Inv, ConfigValid;
      var active := partitions[pk].active;
      IndexKnown(cfg, View(), pk);
      var rest := active.Keys;
      while rest != {}
        invariant rest <= active.Keys
        invariant forall h, id :: h in active && h !in rest && id in active[h] ==>
          !(id in items && w in items[id].waiters && w in waiters && waiters[w].active)
        decreases rest
      {
        var h :| h in rest;
        for i := 0 to |active[h]|
          invariant forall k :: 0 <= k < i ==>
            !(active[h][k] in items && w in items[active[h][k]].waiters && w in waiters && waiters[w].active)
        {
          var id := active[h][i];
          assert id in active[h];
          if id in items && w in items[id].waiters && w in waiters && waiters[w].active {
            return Some(id);
          }
        }
        rest := rest - {h};
      }
      found := None;
    }

    method Detach(pk: string, w: nat)
      requires Attached(View(), pk, w) && pk in partitions
      modifies this`partitions, this`items, this`waiters
      ensures View() == M.Detach(old(View()), pk, w)
    {
      var id := waiters[w].home;
      waiters := waiters[w := waiters[w].(active := false)];
      items := items[id := items[id].(activeWaiters := items[id].activeWaiters - 1)];
      partitions := partitions[pk := partitions[pk].(waiters := partitions[pk].waiters - 1)];
    }

    method Abandon(batch: nat)
      modifies this`inflight
      ensures View() == M.Abandon(old(View()), batch)
    {
      if batch in inflight {
        var b := inflight[batch];
        b := b.(activeWaiters := b.activeWaiters - 1);
        if b.activeWaiters == 0 {
          b := b.(cancelled := true);
        }
        inflight := inflight[batch := b];
      }
    }

    method HandleCancel(pk: string, w: nat)
      requires Valid()
      modifies this`partitions, this`items, this`waiters, this`inflight
      ensures View() == M.HandleCancel(old(View()), pk, w)
    {
      hide Inv, M.Detach, M.RemovePending, M.Abandon;
      if pk !in partitions {
        return;
      }
      var found := FindCaller(pk, w);
      if found.None? {
        return;
      }
      var id := found.value;
      HomeIs(cfg, View(), id, w);
      DetachFields(View(), pk, w);
      Detach(pk, w);
      if items[id].activeWaiters == 0 {
        if !items[id].dispatched {
          RemovePendingItem(pk, id);
        } else {
          Abandon(items[id].batchID);
        }
      }
    }

    // -------------------------------------------------------------- deadlines and dispatch decisions

    method EarliestDeadline(ids: seq<nat>) returns (best: Option<Time>)
      ensures best == M.EarliestDeadline(waiters, ids)
    {
      best := None;
      for i := 0 to |ids|
        invariant best == M.EarliestDeadline(waiters, ids[..i])
      {
        assert ids[..i + 1][..i] == ids[..i];
        if ids[i] in waiters && waiters[ids[i]].active && waiters[ids[i]].deadline.Some? {
          if best.None? || waiters[ids[i]].deadline.value < best.value {
            best := waiters[ids[i]].deadline;
          }
        }
      }
      assert ids[..|ids|] == ids;
    }

    method PendingDeadline(ids: seq<nat>) returns (best: Option<Time>)
      ensures best == M.PendingDeadline(View(), ids)
    {
      best := None;
      for i := 0 to |ids|
        invariant best == M.PendingDeadline(View(), ids[..i])
      {
        assert ids[..i + 1][..i] == ids[..i];
        if ids[i] in items {
          var t := EarliestDeadline(items[ids[i]].waiters);
          if t.Some? && (best.None? || t.value < best.value) {
            best := t;
          }
        }
      }
      assert ids[..|ids|] == ids;
    }

    method ItemLatest(ids: seq<nat>) returns (l: Latest)
      ensures l == LatestOf(waiters, ids)
    {
      var best, all, any := ZERO_TIME, true, false;
      for i := 0 to |ids|
        invariant Latest(any, all, best) == LatestOf(waiters, ids[..i])
      {
        assert ids[..i + 1][..i] == ids[..i];
        if ids[i] in waiters && waiters[ids[i]].active {
          any := true;
          var d := waiters[ids[i]].deadline;
          if d.None? {
            all := false;
          } else if d.value > best {
            best := d.value;
          }
        }
      }
      assert ids[..|ids|] == ids;
      l := Latest(any, all, best);
    }

    /** The deadline of the provider context for the selected items. */
    method BatchContext(ids: seq<nat>) returns (deadline: Option<Time>)
      ensures deadline == BatchDeadline(View(), ids)
    {
      var latest, all, any := ZERO_TIME, true, false;
      for i := 0 to |ids|
        invariant Latest(any, all, latest) == BatchLatest(View(), ids[..i])
      {
        assert ids[..i + 1][..i] == ids[..i];
        if ids[i] in items {
          var l := ItemLatest(items[ids[i]].waiters);
          if !(l.any && l.all) {
            all := false;
          } else {
            any := true;
            if l.best > latest {
              latest := l.best;
            }
          }
        }
      }
      assert ids[..|ids|] == ids;
      deadline := if any && all then Some(latest) else None;
    }

    method ShouldDispatch(pk: string, force: bool, now: Time) returns (reason: Option<FlushReason>)
      requires pk in partitions
      ensures reason == M.ShouldDispatch(cfg, View(), partitions[pk], force, now)
    {
      reason := None;
      var p := partitions[pk];
      if |p.pending| == 0 { return None; }
      if force { return Some(FlushManual); }
      var size := if dyn.Some? then dyn.value.maxBatchSize else cfg.maxBatchSize;
      if |p.pending| >= size { return Some(FlushSize); }
      if cfg.maxBatchWeight > 0 && p.weight >= cfg.maxBatchWeight { return Some(FlushWeight); }
      if cfg.maxBatchBytes > 0 && p.bytes >= cfg.maxBatchBytes { return Some(FlushBytes); }
      var maxWait := if dyn.Some? then dyn.value.maxWait else cfg.maxWait;
      var enqueue := if p.pending[0] in items then items[p.pending[0]].enqueue else ZERO_TIME;
      match cfg.flushMode
      case Immediate => return Some(FlushWait);
      case Manual => return None;
      case FixedWindow =>
        if maxWait > 0 && now >= enqueue + maxWait { return Some(FlushWait); }
      case DeadlineAware =>
        if maxWait > 0 && now >= enqueue + maxWait { return Some(FlushWait); }
        var d := PendingDeadline(p.pending);
        if d.Some? && now >= d.value - cfg.deadlineMargin { return Some(FlushDeadline); }
    }

    // -------------------------------------------------------------- dispatch

    /** One pass over a queue: selects a batch and fails oversized items on the way. */
    method SelectPass(pk: string) returns (acc: Selection, failed: seq<Item>)
      requires ConfigValid(cfg) && Core(cfg, View(), {}) && pk in partitions
      modifies this`partitions, this`items, this`waiters
      ensures acc == Select(cfg, MaxBatchSize(cfg, old(View())), old(items), old(partitions[pk].pending))
      ensures failed == Records(old(items), acc.gone)
      ensures View() == M.FinishAll(old(View()), pk, acc.gone, acc.results)
    {
      hide Core, ConfigValid, Select, M.FinishAll, M.FinishItem, WithinLimits, CountOk, Records;
      ghost var s := View();
      var pending := partitions[pk].pending;
      var size := if dyn.Some? then dyn.value.maxBatchSize else cfg.maxBatchSize;
      acc, failed := NO_SELECTION, [];
      RecordsNone(items);
      QueueNamed(cfg, s, pk);
      FinishNone(s, pk);
      SelectNone(cfg, size, items);
      for i := 0 to |pending|
        invariant acc == Select(cfg, size, s.items, pending[..i])
        invariant View() == M.FinishAll(s, pk, acc.gone, acc.results) && failed == Records(s.items, acc.gone)
        invariant forall id :: id in acc.gone ==> id in pending[..i]
      {
        var id := pending[i];
        assert id in pending && id !in pending[..i];
        UntouchedItem(s, pk, acc.gone, acc.results, id);
        SelectNext(cfg, size, s.items, pending, i);
        RecordsMore(s.items, acc.gone, id);
        var it := items[id];
        if it.activeWaiters == 0 {
          FinishMore(s, pk, acc.gone, acc.results, id, None);
          FinishItem(pk, id, None);
          failed := failed + [it];
          acc := acc.(gone := acc.gone + [id], results := acc.results + [None]);
        } else if |acc.selected| == 0 && TooLarge(cfg, it) {
          FinishMore(s, pk, acc.gone, acc.results, id, Some(Broken(ItemTooLarge)));
          FinishItem(pk, id, Some(Broken(ItemTooLarge)));
          failed := failed + [it];
          acc := acc.(gone := acc.gone + [id], results := acc.results + [Some(Broken(ItemTooLarge))]);
        } else if |acc.selected| > 0 && !Fits(cfg, size, |acc.selected|, acc.weight, acc.bytes, it) {
          acc := acc.(remaining := acc.remaining + [id]);
        } else {
          acc := acc.(selected := acc.selected + [id], weight := acc.weight + it.weight, bytes := acc.bytes + it.bytes,
          minSeq := if it.order < acc.minSeq then it.order else acc.minSeq);
        }
      }
      assert pending[..|pending|] == pending;
    }

    /** Selects a batch from a queue and starts the provider call for it. */
    method DispatchBatch(pk: string)
      requires ConfigValid(cfg) && Core(cfg, View(), {}) && pk in partitions
      modifies this
      ensures View() == Dispatch(cfg, old(View()), pk)
    {
      hide Core, ConfigValid, Select, M.FinishAll, M.StartBatch, RequestFor, Records;
      ghost var s := View();
      var acc, failed := SelectPass(pk);
      CutCommutes(s, pk, acc.remaining, failed, acc.gone, acc.results);
      FinishAllPartition(s, pk, acc.gone, acc.results);
      partitions := partitions[pk := partitions[pk].(pending := acc.remaining,
        failed := partitions[pk].failed + failed)];
      if |acc.selected| == 0 {
        return;
      }
      var request := BuildRequest(acc.selected);
      var err, _ := NewBatchRequest(request);
      if err.Some? {
        FinishAll(pk, acc.selected, seq(|acc.selected|, _ => Some(Broken(ContractViolation))));
        return;
      }
      StartBatch(pk, acc);
    }

    method BuildRequest(ids: seq<nat>) returns (r: seq<BatchItem>)
      ensures r == RequestFor(View(), ids)
    {
      r := [];
      for i := 0 to |ids|
        invariant r == RequestFor(View(), ids[..i])
      {
        assert ids[..i + 1][..i] == ids[..i];
        if ids[i] in items {
          var it := items[ids[i]];
          var d := EarliestDeadline(it.waiters);
          r := r + [BatchItem(it.id, it.key, d, 0, ClampWeight(it.weight))];
        }
      }
      assert ids[..|ids|] == ids;
    }

    method CountCallers(ids: seq<nat>) returns (n: int)
      ensures n == SumActive(items, ids)
    {
      n := 0;
      for i := 0 to |ids|
        invariant n == SumActive(items, ids[..i])
      {
        assert ids[..i + 1][..i] == ids[..i];
        if ids[i] in items {
          n := n + items[ids[i]].activeWaiters;
        }
      }
      assert ids[..|ids|] == ids;
    }

    method StartBatch(pk: string, sel: Selection)
      requires pk in partitions
      modifies this
      ensures View() == M.StartBatch(old(View()), pk, sel)
    {
      hide SumActive, BatchDeadline, MarkDispatched;
      var p := partitions[pk];
      var deadline := BatchContext(sel.selected);
      var inflightWaiters := CountCallers(sel.selected);
      partitions := partitions[pk := p.(bytes := p.bytes - sel.bytes, weight := p.weight - sel.weight)];
      batchSeq := batchSeq + 1;
      items := MarkDispatched(items, sel.selected, batchSeq);
      inflight := inflight[batchSeq := Batch(sel.selected, inflightWaiters, pk, sel.minSeq, deadline, false)];
      activeProvider := activeProvider + 1;
    }

    method Prune(pk: string)
      modifies this`partitions, this`items
      ensures View() == M.Prune(old(View()), pk)
    {
      hide M.RemovePending;
      while pk in partitions && |partitions[pk].pending| > 0
            && partitions[pk].pending[0] in items && items[partitions[pk].pending[0]].activeWaiters == 0
        invariant M.Prune(View(), pk) == M.Prune(old(View()), pk)
        decreases PendingCount(View(), pk)
      {
        PruneStep(View(), pk);
        RemovePendingItem(pk, partitions[pk].pending[0]);
      }
    }

    /** Dispatches from one partition while something is due and a provider slot is free. */
    method DispatchLoop(pk: string, force: bool, now: Time)
      requires ConfigValid(cfg) && Core(cfg, View(), {})
      modifies this
      ensures View() == M.DispatchLoop(cfg, old(View()), pk, force, now)
      ensures Core(cfg, View(), {})
    {
      hide ConfigValid, Core, Dispatch, M.ShouldDispatch, M.Prune, Progress, Quiet;
      var maxConcurrency := if dyn.Some? then dyn.value.maxConcurrency else cfg.maxConcurrency;
      while pk in partitions && |partitions[pk].pending| > 0 && activeProvider < maxConcurrency
        invariant Core(cfg, View(), {}) && dyn == old(dyn)
        invariant M.DispatchLoop(cfg, View(), pk, force, now) == M.DispatchLoop(cfg, old(View()), pk, force, now)
        decreases PendingCount(View(), pk)
      {
        ghost var s := View();
        PruneIdle(cfg, s, pk);
        Prune(pk);
        var reason := ShouldDispatch(pk, force, now);
        if reason.None? {
          return;
        }
        DispatchShrinks(cfg, s, pk);
        DispatchAlways(cfg, s, pk);
        DispatchBatch(pk);
      }
    }

    /** When a partition becomes dispatchable by time. */
    method PartitionDue(p: Partition) returns (due: Option<Time>)
      ensures due == DueAt(cfg, View(), p)
    {
      due := None;
      if |p.pending| > 0 {
        var maxWait := if dyn.Some? then dyn.value.maxWait else cfg.maxWait;
        var enqueue := if p.pending[0] in items then items[p.pending[0]].enqueue else ZERO_TIME;
        if (cfg.flushMode.FixedWindow? || cfg.flushMode.DeadlineAware?) && maxWait > 0 {
          due := Some(enqueue + maxWait);
        }
        if cfg.flushMode.DeadlineAware? {
          var d := PendingDeadline(p.pending);
          if d.Some? && (due.None? || d.value - cfg.deadlineMargin < due.value) {
            due := Some(d.value - cfg.deadlineMargin);
          }
        }
      }
    }

    method NextDue() returns (next: Option<Time>)
      ensures next == EarliestDue(cfg, View(), SortedKeys(partitions.Keys))
    {
      hide DueAt, EarliestDue, IsEarliest;
      next := None;
      var rest := partitions.Keys;
      ghost var keys := SortedKeys(partitions.Keys);
      NoneEarliest(cfg, View());
      while rest != {}
        invariant rest <= partitions.Keys
        invariant IsEarliest(cfg, View(), partitions.Keys - rest, next)
        decreases rest
      {
        var pk :| pk in rest;
        var due := PartitionDue(partitions[pk]);
        EarliestStep(cfg, View(), partitions.Keys - rest, next, pk);
        next := Earlier(next, due);
        assert partitions.Keys - (rest - {pk}) == partitions.Keys - rest + {pk};
        rest := rest - {pk};
      }
      assert partitions.Keys - rest == partitions.Keys == Elems(keys);
      EarliestUnique(cfg, View(), keys, next);
    }

    method ComputeNextTimer(now: Time)
      modifies this`timer
      ensures View() == ArmTimer(cfg, old(View()), now)
    {
      hide EarliestDue;
      var next := NextDue();
      timer := if next.None? then None else Some(if next.value < now then now else next.value);
    }

    /** One scheduling pass over the partitions in sorted order. */
    method Schedule(force: bool, now: Time)
      requires ConfigValid(cfg) && Core(cfg, View(), {})
      modifies this
      ensures View() == M.Schedule(cfg, old(View()), force, now)
    {
      hide ConfigValid, Core, M.DispatchLoop, M.MaybeRetire, ArmTimer;
      ghost var s := View();
      var keys := SortKeys(partitions.Keys);
      for i := 0 to |keys|
        invariant Core(cfg, View(), {})
        invariant View() == ScheduleAll(cfg, s, keys[..i], force, now)
      {
        assert keys[..i + 1][..i] == keys[..i];
        if keys[i] in partitions {
          DispatchLoop(keys[i], force, now);
          RetireKeeps(cfg, View(), keys[i]);
          MaybeRetire(keys[i]);
        }
      }
      assert keys[..|keys|] == keys;
      ComputeNextTimer(now);
    }

    // -------------------------------------------------------------- completion

    /** The result for each batch item: the provider's answers if they match the batch, an error otherwise. */
    method ResultsFor(done: Completion, ids: seq<nat>) returns (rs: seq<Option<Delivery>>)
      ensures rs == Results(done, ids)
    {
      match done
      case Panicked => rs := seq(|ids|, _ => Some(Broken(ProviderPanic)));
      case Failed(e) => rs := seq(|ids|, _ => Some(Broken(GlobalFailure(e))));
      case Responded(outcomes) =>
        var err := ValidateAgainst(outcomes, ids);
        if err.Some? {
          rs := seq(|ids|, _ => Some(Broken(ContractViolation)));
          return;
        }
        var byID: map<nat, RawOutcome> := map[];
        for i := 0 to |outcomes|
          invariant forall id :: Lookup(outcomes[..i], id) == if id in byID then Some(byID[id]) else None
        {
          assert outcomes[..i + 1][..i] == outcomes[..i];
          byID := byID[outcomes[i].id := outcomes[i]];
        }
        assert outcomes[..|outcomes|] == outcomes;
        rs := [];
        for i := 0 to |ids|
          invariant |rs| == i && forall k :: 0 <= k < i ==> rs[k] == Some(Answer(OutcomeFor(outcomes, ids[k])))
        {
          var r := Missing;
          if ids[i] in byID {
            r := ToOutcome(byID[ids[i]]);
          }
          rs := rs + [Some(Answer(r))];
        }
    }

    method HandleComplete(batch: nat, done: Completion, at: Time)
      modifies this
      ensures View() == M.HandleComplete(cfg, old(View()), batch, done, at)
    {
      hide Results, M.FinishAll, M.MaybeRetire, M.RetryBlocked;
      if batch !in inflight {
        return;
      }
      var b := inflight[batch];
      inflight := inflight - {batch};
      activeProvider := activeProvider - 1;
      var rs := ResultsFor(done, b.items);
      FinishAll(b.partition, b.items, rs);
      MaybeRetire(b.partition);
      RetryBlocked(at);
    }

    // -------------------------------------------------------------- barriers and shutdown

    method AnyPending(upTo: nat) returns (yes: bool)
      ensures yes == M.AnyPending(View(), upTo)
    {
      var rest := partitions.Keys;
      while rest != {}
        invariant rest <= partitions.Keys
        invariant forall pk :: pk in partitions && pk !in rest ==> NoneUpTo(items, partitions[pk].pending, upTo)
        decreases rest
      {
        var pk :| pk in rest;
        var pending := partitions[pk].pending;
        for i := 0 to |pending|
          invariant NoneUpTo(items, pending[..i], upTo)
        {
          if pending[i] in items && items[pending[i]].order <= upTo {
            return true;
          }
        }
        assert pending[..|pending|] == pending;
        rest := rest - {pk};
      }
      yes := false;
    }

    method AnyInflight(upTo: nat) returns (yes: bool)
      ensures yes == M.AnyInflight(View(), upTo)
    {
      var rest := inflight.Keys;
      while rest != {}
        invariant rest <= inflight.Keys
        invariant forall b :: b in inflight && b !in rest ==> inflight[b].minSeq > upTo
        decreases rest
      {
        var b :| b in rest;
        if inflight[b].minSeq <= upTo {
          return true;
        }
        rest := rest - {b};
      }
      yes := false;
    }

    method BarrierSatisfied(b: Barrier) returns (yes: bool)
      ensures yes == M.BarrierSatisfied(View(), b)
    {
      hide M.AnyPending, M.AnyInflight;
      var pending := AnyPending(b.upTo);
      if pending {
        return false;
      }
      if b.kind == Flush {
        return true;
      }
      var flying := AnyInflight(b.upTo);
      yes := !flying;
    }

    /** Answers one barrier if its context expired or its condition holds; otherwise it is kept. */
    method AnswerBarrier(b: Barrier, expired: set<nat>) returns (keep: bool)
      modifies this`signals
      ensures keep == (b.id !in expired && !M.BarrierSatisfied(old(View()), b))
      ensures signals == if b.id in expired then Signalled(old(signals), b.id, TimedOut(b.kind))
                         else if M.BarrierSatisfied(old(View()), b) then Signalled(old(signals), b.id, Done)
                           else old(signals)
    {
      hide M.BarrierSatisfied, Signalled;
      keep := false;
      if b.id in expired {
        Signal(b.id, TimedOut(b.kind));
        return;
      }
      var yes := BarrierSatisfied(b);
      if yes {
        Signal(b.id, Done);
        return;
      }
      keep := true;
    }

    /** Answers the barriers that are satisfied or whose context expired. */
    method TryCompleteBarriers(expired: set<nat>)
      modifies this`barriers, this`signals
      ensures View() == CompleteBarriers(old(View()), expired)
    {
      hide TriedSoFar, CompleteBarriers;
      ghost var s := View();
      var kept := TryEach(barriers, expired);
      TryAll(s, expired, kept, signals);
      barriers := kept;
    }

    /** Tries the barriers in order and returns those still to be answered. */
    method TryEach(all: seq<Barrier>, expired: set<nat>) returns (kept: seq<Barrier>)
      modifies this`signals
      ensures TriedSoFar(old(View()), all, expired, kept, signals)
    {
      hide M.BarrierSatisfied, TriedSoFar, Signalled;
      ghost var s := View();
      kept := [];
      TryNone(s, expired);
      assert all[..0] == [];
      for i := 0 to |all|
        invariant TriedSoFar(s, all[..i], expired, kept, signals)
      {
        ghost var before := View();
        SameBarrier(s, before, all[i]);
        var keep := AnswerBarrier(all[i], expired);
        TryNext(s, all, i, expired, kept, before.signals, keep, signals);
        if keep {
          kept := kept + [all[i]];
        }
      }
      assert all[..|all|] == all;
    }

    method Signal(id: nat, r: BarrierReply)
      modifies this`signals
      ensures signals == Signalled(old(signals), id, r)
    {
      if id in signals {
        signals := signals[id := signals[id].(sent := signals[id].sent + [r])];
      }
    }

    method FailBarriers(r: BarrierReply)
      modifies this`barriers, this`signals
      ensures View() == M.FailBarriers(old(View()), r)
    {
      var all := barriers;
      for i := 0 to |all|
        invariant barriers == old(barriers)
        invariant signals == SignalAll(old(signals), all[..i], r)
      {
        assert all[..i + 1][..i] == all[..i];
        Signal(all[i].id, r);
      }
      assert all[..|all|] == all;
      barriers := [];
    }

    method HandleControl(kind: ControlKind, id: nat, at: Time)
      requires Valid()
      modifies this
      ensures View() == M.HandleControl(cfg, old(View()), kind, id, at)
    {
      hide M.Schedule;
      ClosingKeeps(cfg, View());
      if kind == Close {
        closing := true;
      }
      Schedule(true, at);
      barriers := barriers + [Barrier(id, kind, submitSeq)];
      signals := signals[id := CoordModel.Signal(kind, submitSeq, [])];
    }

    method CloseItems(ids: seq<nat>)
      modifies this`waiters
      ensures waiters == ClosedFor(old(waiters), Callers(items, Elems(ids)))
    {
      ghost var was := waiters;
      for i := 0 to |ids|
        invariant waiters == ClosedFor(was, Callers(items, Elems(ids[..i])))
      {
        CloseStep(was, items, Elems(ids[..i]), ids[i]);
        assert Elems(ids[..i + 1]) == Elems(ids[..i]) + {ids[i]};
        if ids[i] in items {
          DeliverAll(items[ids[i]].waiters, Broken(EngineClosed));
        }
      }
      assert ids[..|ids|] == ids;
    }

    method ClosePartition(active: map<nat, seq<nat>>)
      modifies this`waiters
      ensures waiters == ClosedFor(old(waiters), Callers(items, Filed(active, active.Keys)))
    {
      ghost var was := waiters;
      var rest := active.Keys;
      while rest != {}
        invariant rest <= active.Keys
        invariant waiters == ClosedFor(was, Callers(items, Filed(active, active.Keys - rest)))
        decreases rest
      {
        var h :| h in rest;
        CloseMore(was, items, Filed(active, active.Keys - rest), Elems(active[h]));
        assert Filed(active, active.Keys - (rest - {h})) == Filed(active, active.Keys - rest) + Elems(active[h]);
        CloseItems(active[h]);
        rest := rest - {h};
      }
      assert active.Keys - rest == active.Keys;
    }

    /** Tells the callers of every indexed item that the engine closed. */
    method CloseCallers()
      modifies this`waiters
      ensures waiters == ClosedFor(old(waiters), Callers(items, AllFiled(partitions, partitions.Keys)))
    {
      ghost var was := waiters;
      var rest := partitions.Keys;
      while rest != {}
        invariant rest <= partitions.Keys
        invariant waiters == ClosedFor(was, Callers(items, AllFiled(partitions, partitions.Keys - rest)))
        decreases rest
      {
        var pk :| pk in rest;
        var active := partitions[pk].active;
        CloseMore(was, items, AllFiled(partitions, partitions.Keys - rest), Filed(active, active.Keys));
        assert AllFiled(partitions, partitions.Keys - (rest - {pk})) ==
          AllFiled(partitions, partitions.Keys - rest) + Filed(active, active.Keys);
        ClosePartition(active);
        rest := rest - {pk};
      }
      assert partitions.Keys - rest == partitions.Keys;
    }

    method CancelBatches()
      modifies this`inflight
      ensures inflight == AllCancelled(old(inflight))
    {
      var rest := inflight.Keys;
      ghost var was := inflight;
      while rest != {}
        invariant rest <= was.Keys && inflight.Keys == was.Keys
        invariant forall b :: b in was ==> inflight[b] == if b in rest then was[b] else was[b].(cancelled := true)
        decreases rest
      {
        var b :| b in rest;
        inflight := inflight[b := inflight[b].(cancelled := true)];
        rest := rest - {b};
      }
    }

    method HandleEngineCancel()
      requires Valid()
      modifies this
      ensures View() == M.HandleEngineCancel(old(View()))
    {
      hide M.FailBarriers, M.HandleEngineCancel, Inv, Callers, AllFiled, ClosedFor, Indexed, AllCancelled;
      ghost var s := View();
      ClosedIsIndexed(cfg, s);
      CancelFails(s);
      closing := true;
      engineDone := true;
      CloseCallers();
      CancelBatches();
      assert View() == Closed(s);
      FailBarriers(ShutDown);
    }

    method Drained() returns (yes: bool)
      ensures yes == M.Drained(View())
    {
      if |inflight| > 0 || activeProvider > 0 {
        return false;
      }
      var rest := partitions.Keys;
      while rest != {}
        invariant rest <= partitions.Keys
        invariant forall pk :: pk in partitions && pk !in rest ==> partitions[pk].live <= 0
        decreases rest
      {
        var pk :| pk in rest;
        if partitions[pk].live > 0 {
          return false;
        }
        rest := rest - {pk};
      }
      yes := true;
    }

    // -------------------------------------------------------------- the event loop

    method Handle(e: Event)
      requires Valid() && Enabled(cfg, ANY_LAW, View(), e)
      modifies this
      ensures View() == M.Handle(cfg, old(View()), e)
    {
      hide Inv, ConfigValid, M.HandleSubmit, M.HandleCancel, M.HandleComplete, M.HandleControl, M.HandleEngineCancel,
        M.Schedule, Unpark, Lawful;
      match e
      case Submit(req, deadline, at) =>
        waiters := waiters[req.waiter := Waiter(req.part, req.key, deadline, true, [], [], 0)];
        HandleSubmit(req, at);
      case Cancel(part, w) => HandleCancel(part, w);
      case Unblock(w) => Unblock(w);
      case Complete(batch, done, at) => HandleComplete(batch, done, at);
      case Control(kind, id, at) => HandleControl(kind, id, at);
      case TimerFired(at) =>
        TimerKeeps(cfg, View(), None);
        timer := None;
        Schedule(false, at);
      case EngineCancel => HandleEngineCancel();
    }

    /**
     One turn of the loop. It computes the model's turn, keeps the invariant, and moves every caller
     forward whatever law the provider's answers obey.
     */
    method Turn(e: Event, now: Time, expired: set<nat>, ghost law: Law)
      requires Valid() && LawOk(law) && Enabled(cfg, law, View(), e)
      modifies this
      ensures Valid() && View() == M.Turn(cfg, old(View()), e, now, expired)
      ensures Progress(law, old(View()), View())
    {
      hide Inv, ConfigValid, LawOk, Progress, M.Handle, M.Schedule, CompleteBarriers, M.FailBarriers, M.Drained, Lawful;
      TurnKeeps(cfg, law, View(), e, now, expired);
      EnabledAny(cfg, law, View(), e);
      ghost var s := View();
      AnyLawOk();
      HandleKeeps(cfg, ANY_LAW, View(), e);
      Handle(e);
      if e.EngineCancel? {
        var done := Drained();
        if done {
          stopped := true;
          return;
        }
      }
      InvCore(cfg, View());
      Schedule(false, now);
      TryCompleteBarriers(expired);
      if closing {
        var done := Drained();
        if done {
          FailBarriers(Done);
          stopped := true;
        }
      }
    }

    /** Installs clamped adaptive settings. */
    method ApplySettings(want: Settings)
      requires Valid()
      modifies this`dyn
      ensures Valid() && View() == Next(cfg, old(View()), Adapt(want))
    {
      hide Inv, ConfigValid, LawOk, Progress;
      AnyLawOk();
      NextKeeps(cfg, ANY_LAW, View(), Adapt(want));
      dyn := Some(Clamped(cfg, want));
    }

    method ClearSettings()
      requires Valid()
      modifies this`dyn
      ensures Valid() && View() == Next(cfg, old(View()), ClearAdapt)
    {
      hide Inv, ConfigValid, LawOk, Progress;
      AnyLawOk();
      NextKeeps(cfg, ANY_LAW, View(), ClearAdapt);
      dyn := None;
    }
  }

  // ---------------------------------------------------------------- shutdown

  /** The law that permits every delivery. */
  ghost const ANY_LAW: Law := (p, k, d) => true

  lemma AnyLawOk()
    ensures LawOk(ANY_LAW)
  {
  }

  lemma EnabledAny(cfg: Config, law: Law, s: State, e: Event)
    requires Enabled(cfg, law, s, e)
    ensures Enabled(cfg, ANY_LAW, s, e)
  {
    hide Results;
    if e.Complete? && e.batch in s.inflight {
      ResultsSome(e.done, s.inflight[e.batch].items);
    }
  }

  lemma InvCore(cfg: Config, s: State)
    requires Inv(cfg, s)
    ensures Core(cfg, s, {})
  {
  }

  lemma TimerKeeps(cfg: Config, s: State, timer: Option<Time>)
    requires Inv(cfg, s)
    ensures Core(cfg, s.(timer := timer), {})
  {
    hide Core, ParkedOk, BarriersOk, Progress, Quiet;
    TimerMoves(cfg, ANY_LAW, s, timer);
  }

  lemma ClosingKeeps(cfg: Config, s: State)
    requires Inv(cfg, s)
    ensures Core(cfg, s, {}) && Core(cfg, s.(closing := true), {})
  {
    hide ItemsOk, QueuesOk, BatchesOk, WaitersOk, DedupOk, ParkedOk, BarriersOk, Progress;
    OnlyControl(cfg, ANY_LAW, s, s.(closing := true));
  }

  ghost predicate NoneUpTo(items: map<nat, Item>, ids: seq<nat>, upTo: nat) {
    forall i :: 0 <= i < |ids| && ids[i] in items ==> items[ids[i]].order > upTo
  }

  /** The barriers kept and the signals sent after the first barriers were tried. */
  ghost predicate TriedSoFar(s: State, bs: seq<Barrier>, expired: set<nat>, kept: seq<Barrier>,
                             signals: map<nat, Signal>) {
    TryBarriers(s, bs, expired) == (kept, signals)
  }

  lemma TryNone(s: State, expired: set<nat>)
    ensures TriedSoFar(s, [], expired, [], s.signals)
  {
  }

  lemma TryNext(s: State, bs: seq<Barrier>, i: nat, expired: set<nat>, kept: seq<Barrier>,
                signals: map<nat, Signal>, keep: bool, signals': map<nat, Signal>)
    requires i < |bs| && TriedSoFar(s, bs[..i], expired, kept, signals)
    requires keep == (bs[i].id !in expired && !M.BarrierSatisfied(s, bs[i]))
    requires signals' == if bs[i].id in expired then Signalled(signals, bs[i].id, TimedOut(bs[i].kind))
                         else if M.BarrierSatisfied(s, bs[i]) then Signalled(signals, bs[i].id, Done) else signals
    ensures TriedSoFar(s, bs[..i + 1], expired, if keep then kept + [bs[i]] else kept, signals')
  {
    hide M.BarrierSatisfied, Signalled;
    assert bs[..i + 1][..i] == bs[..i];
  }

  lemma TryAll(s: State, expired: set<nat>, kept: seq<Barrier>, signals: map<nat, Signal>)
    requires TriedSoFar(s, s.barriers, expired, kept, signals)
    ensures CompleteBarriers(s, expired) == s.(barriers := kept, signals := signals)
  {
    hide TryBarriers;
  }

  lemma SameBarrier(s: State, s': State, b: Barrier)
    requires s' == s.(signals := s'.signals)
    ensures M.BarrierSatisfied(s', b) == M.BarrierSatisfied(s, b)
  {
  }

  ghost function Callers(items: map<nat, Item>, ids: set<nat>): (ws: set<nat>) {
    set id, w | id in ids && id in items && w in items[id].waiters :: w
  }

  /** The ids an index files under the given hashes. */
  ghost function Filed(active: map<nat, seq<nat>>, hs: set<nat>): (ids: set<nat>) {
    set h, id | h in hs && h in active && id in active[h] :: id
  }

  ghost function AllFiled(ps: map<string, Partition>, ks: set<string>): (ids: set<nat>) {
    set pk, h, id | pk in ks && pk in ps && h in ps[pk].active && id in ps[pk].active[h] :: id
  }

  /** The callers `D` were told that the engine closed. */
  ghost function ClosedFor(ws: map<nat, Waiter>, D: set<nat>): (ws': map<nat, Waiter>) {
    map w | w in ws :: if w in D && ws[w].active then ws[w].(active := false, ch := ws[w].ch + [Broken(EngineClosed)])
      else ws[w]
  }

  lemma CloseMore(ws: map<nat, Waiter>, items: map<nat, Item>, a: set<nat>, b: set<nat>)
    ensures ClosedFor(ClosedFor(ws, Callers(items, a)), Callers(items, b)) == ClosedFor(ws, Callers(items, a + b))
  {
    assert Callers(items, a + b) == Callers(items, a) + Callers(items, b);
    hide Callers;
  }

  lemma CloseStep(ws: map<nat, Waiter>, items: map<nat, Item>, a: set<nat>, id: nat)
    ensures ClosedFor(ws, Callers(items, a + {id})) ==
            if id in items then M.DeliverAll(ClosedFor(ws, Callers(items, a)), items[id].waiters, Broken(EngineClosed))
            else ClosedFor(ws, Callers(items, a))
  {
    CloseMore(ws, items, a, {id});
    var was := ClosedFor(ws, Callers(items, a));
    if id in items {
      DeliverAllAt(was, items[id].waiters, Broken(EngineClosed));
      assert Callers(items, {id}) == Elems(items[id].waiters);
    } else {
      assert Callers(items, {id}) == {};
    }
  }

  /** The callers found through the partitions' indexes are those of the live items. */
  lemma IndexKnown(cfg: Config, s: State, pk: string)
    requires Inv(cfg, s) && pk in s.partitions
    ensures IndexOk(s.items, pk, s.partitions[pk].active)
  {
    hide ItemsOk, BatchesOk, WaitersOk, DedupOk, CountersOk, ParkedOk, BarriersOk, WithinLimits, IndexOk;
    assert QueueOk(cfg, s, pk);
  }

  lemma CancelFails(s: State)
    ensures M.HandleEngineCancel(s) == M.FailBarriers(Closed(s), ShutDown)
  {
    hide M.FailBarriers, Indexed;
  }

  lemma ClosedIsIndexed(cfg: Config, s: State)
    requires Inv(cfg, s)
    ensures ClosedFor(s.waiters, Callers(s.items, AllFiled(s.partitions, s.partitions.Keys))) == Closed(s).waiters
  {
    hide Inv, ClosedFor;
    forall w | w in s.waiters ensures w in Callers(s.items, AllFiled(s.partitions, s.partitions.Keys)) <==>
      Indexed(s, w) {
      if Indexed(s, w) {
        FiledAll(cfg, s, s.waiters[w].home);
      }
      if w in Callers(s.items, AllFiled(s.partitions, s.partitions.Keys)) {
        var id :| id in s.items && w in s.items[id].waiters;
        HomeIs(cfg, s, id, w);
      }
    }
    ClosedPointwise(s, Callers(s.items, AllFiled(s.partitions, s.partitions.Keys)));
  }

  lemma ClosedPointwise(s: State, D: set<nat>)
    requires forall w :: w in s.waiters ==> (w in D <==> Indexed(s, w))
    ensures ClosedFor(s.waiters, D) == Closed(s).waiters
  {
  }

  lemma FiledAll(cfg: Config, s: State, id: nat)
    requires Inv(cfg, s) && id in s.items
    ensures id in AllFiled(s.partitions, s.partitions.Keys)
  {
    hide BatchesOk, WaitersOk, DedupOk, CountersOk, ParkedOk, BarriersOk, WithinLimits, HeldOk;
    assert ItemOk(cfg, s, {}, id);
    var pk := s.items[id].part;
    assert QueueOk(cfg, s, pk);
    assert s.items[id].hash in s.partitions[pk].active && id in s.partitions[pk].active[s.items[id].hash];
  }

  /** The item that lists a caller is the one it was attached to. */
  lemma HomeIs(cfg: Config, s: State, id: nat, w: nat)
    requires Inv(cfg, s) && id in s.items && w in s.items[id].waiters
    ensures w in s.waiters && s.waiters[w].home == id
  {
    hide QueuesOk, BatchesOk, WaitersOk, DedupOk, CountersOk, ParkedOk, BarriersOk, HeldOk;
    assert ItemOk(cfg, s, {}, id);
    assert CallerOf(cfg, s.waiters, s.items[id], w);
  }

  // ---------------------------------------------------------------- the dispatch pass

  lemma QueueNamed(cfg: Config, s: State, pk: string)
    requires Core(cfg, s, {}) && pk in s.partitions
    ensures Known(s.items, s.partitions[pk].pending) && Distinct(s.partitions[pk].pending)
  {
    hide Core;
    QueueKnown(cfg, s, pk);
  }

  lemma FinishNone(s: State, pk: string)
    ensures M.FinishAll(s, pk, [], []) == s
  {
  }

  lemma SelectNone(cfg: Config, size: int, items: map<nat, Item>)
    ensures Select(cfg, size, items, []) == NO_SELECTION
  {
  }

  lemma SelectNext(cfg: Config, size: int, items: map<nat, Item>, ids: seq<nat>, i: nat)
    requires i < |ids| && ids[i] in items
    ensures Select(cfg, size, items, ids[..i + 1]) ==
      SelectOne(cfg, size, Select(cfg, size, items, ids[..i]), items[ids[i]])
  {
    assert ids[..i + 1][..i] == ids[..i];
  }

  lemma FinishMore(s: State, pk: string, ids: seq<nat>, rs: seq<Option<Delivery>>, id: nat, r: Option<Delivery>)
    requires |ids| == |rs|
    ensures M.FinishAll(s, pk, ids + [id], rs + [r]) == M.FinishItem(M.FinishAll(s, pk, ids, rs), pk, id, r)
  {
    assert (ids + [id])[..|ids|] == ids && (rs + [r])[..|rs|] == rs;
  }

  lemma UntouchedOne(s: State, pk: string, id: nat, r: Option<Delivery>, j: nat)
    requires j != id
    ensures var s' := M.FinishItem(s, pk, id, r);
            (j in s'.items <==> j in s.items) && (j in s.items ==> s'.items[j] == s.items[j])
  {
    hide M.RemoveActive, M.DeliverAll;
  }

  lemma {:induction false} UntouchedItem(s: State, pk: string, ids: seq<nat>, rs: seq<Option<Delivery>>, j: nat)
    requires |ids| == |rs| && j !in ids
    ensures var s' := M.FinishAll(s, pk, ids, rs);
            (j in s'.items <==> j in s.items) && (j in s.items ==> s'.items[j] == s.items[j])
  {
    hide M.FinishItem;
    if ids != [] {
      var n := |ids| - 1;
      UntouchedItem(s, pk, ids[..n], rs[..n], j);
      UntouchedOne(M.FinishAll(s, pk, ids[..n], rs[..n]), pk, ids[n], rs[n], j);
    }
  }

  lemma FinishAllPartition(s: State, pk: string, ids: seq<nat>, rs: seq<Option<Delivery>>)
    requires |ids| == |rs|
    ensures M.FinishAll(s, pk, ids, rs).partitions.Keys == s.partitions.Keys
    ensures M.FinishAll(s, pk, ids, rs).dyn == s.dyn
  {
    FinishKeepsPending(s, pk, ids, rs);
    FinishAllQuiet(s, pk, ids, rs);
  }

  /** Replacing a queue and finishing items commute. */
  function Requeued(s: State, pk: string, pending: seq<nat>, failed: seq<Item>): (s': State) {
    if pk !in s.partitions then s
    else SetPartition(s, pk, s.partitions[pk].(pending := pending, failed := s.partitions[pk].failed + failed))
  }

  lemma RecordsNone(items: map<nat, Item>)
    ensures Records(items, []) == []
  {
  }

  lemma RecordsMore(items: map<nat, Item>, ids: seq<nat>, id: nat)
    ensures Records(items, ids + [id]) == Records(items, ids) + if id in items then [items[id]] else []
  {
    assert (ids + [id])[..|ids|] == ids;
  }

  lemma RequeueDrop(s: State, pk: string, pending: seq<nat>, failed: seq<Item>, id: nat)
    ensures M.DropItem(Requeued(s, pk, pending, failed), pk, id) == Requeued(M.DropItem(s, pk, id), pk, pending, failed)
  {
    if id in s.items && pk in s.partitions {
      assert M.DropItem(Requeued(s, pk, pending, failed), pk, id).partitions ==
        Requeued(M.DropItem(s, pk, id), pk, pending, failed).partitions;
    }
  }

  lemma RequeueFinish(s: State, pk: string, pending: seq<nat>, failed: seq<Item>, id: nat, r: Option<Delivery>)
    ensures M.FinishItem(Requeued(s, pk, pending, failed), pk, id, r) ==
      Requeued(M.FinishItem(s, pk, id, r), pk, pending, failed)
  {
    hide M.DropItem;
    RequeueDrop(s, pk, pending, failed, id);
    if id in s.items && r.Some? {
      RequeueDrop(s.(waiters := M.DeliverAll(s.waiters, s.items[id].waiters, r.value)), pk, pending, failed, id);
    }
  }

  lemma {:induction false} CutCommutes(s: State, pk: string, pending: seq<nat>, failed: seq<Item>, ids: seq<nat>,
                                       rs: seq<Option<Delivery>>)
    requires |ids| == |rs|
    ensures M.FinishAll(Requeued(s, pk, pending, failed), pk, ids, rs) ==
      Requeued(M.FinishAll(s, pk, ids, rs), pk, pending, failed)
  {
    hide M.FinishItem, Requeued;
    if ids != [] {
      var n := |ids| - 1;
      CutCommutes(s, pk, pending, failed, ids[..n], rs[..n]);
      RequeueFinish(M.FinishAll(s, pk, ids[..n], rs[..n]), pk, pending, failed, ids[n], rs[n]);
    }
  }

  lemma PruneStep(s: State, pk: string)
    requires pk in s.partitions && s.partitions[pk].pending != [] && s.partitions[pk].pending[0] in s.items
    requires s.items[s.partitions[pk].pending[0]].activeWaiters == 0
    ensures M.Prune(s, pk) == M.Prune(M.RemovePending(s, pk, s.partitions[pk].pending[0]), pk)
    ensures PendingCount(M.RemovePending(s, pk, s.partitions[pk].pending[0]), pk) < PendingCount(s, pk)
  {
  }

  /** A dispatch keeps the core invariant under any law; the law is immaterial here. */
  lemma DispatchAlways(cfg: Config, s: State, pk: string)
    requires ConfigValid(cfg) && Core(cfg, s, {}) && pk in s.partitions && s.activeProvider < MaxConcurrency(cfg, s)
    ensures Core(cfg, Dispatch(cfg, s, pk), {}) && Dispatch(cfg, s, pk).dyn == s.dyn
  {
    hide ConfigValid, Core, Dispatch;
    DispatchKeeps(cfg, (p, k, d) => true, s, pk);
  }

  // ---------------------------------------------------------------- the timer

  /** `next` is the earliest due time among the partitions `ks`. */
  ghost predicate IsEarliest(cfg: Config, s: State, ks: set<string>, next: Option<Time>) {
    && (next.Some? ==> exists k :: k in ks && k in s.partitions && DueAt(cfg, s, s.partitions[k]) == next)
    && (forall k :: k in ks && k in s.partitions && DueAt(cfg, s, s.partitions[k]).Some? ==>
                      next.Some? && next.value <= DueAt(cfg, s, s.partitions[k]).value)
  }

  lemma {:induction false} EarliestDueIs(cfg: Config, s: State, keys: seq<string>)
    ensures IsEarliest(cfg, s, Elems(keys), EarliestDue(cfg, s, keys))
  {
    hide DueAt;
    if keys != [] {
      var n := |keys| - 1;
      EarliestDueIs(cfg, s, keys[..n]);
      assert forall k :: k in keys <==> k in keys[..n] || k == keys[n];
    }
  }

  lemma EarliestUnique(cfg: Config, s: State, keys: seq<string>, next: Option<Time>)
    requires IsEarliest(cfg, s, Elems(keys), next)
    ensures next == EarliestDue(cfg, s, keys)
  {
    hide DueAt;
    EarliestDueIs(cfg, s, keys);
  }

  lemma NoneEarliest(cfg: Config, s: State)
    ensures IsEarliest(cfg, s, s.partitions.Keys - s.partitions.Keys, None)
  {
  }

  lemma EarliestStep(cfg: Config, s: State, ks: set<string>, next: Option<Time>, pk: string)
    requires IsEarliest(cfg, s, ks, next) && pk in s.partitions
    ensures IsEarliest(cfg, s, ks + {pk}, Earlier(next, DueAt(cfg, s, s.partitions[pk])))
  {
    hide DueAt;
    var due := DueAt(cfg, s, s.partitions[pk]);
    var r := Earlier(next, due);
    if r.Some? {
      if r == due {
        assert pk in ks + {pk};
      } else {
        var k :| k in ks && k in s.partitions && DueAt(cfg, s, s.partitions[k]) == next;
        assert k in ks + {pk};
      }
    }
  }
}
