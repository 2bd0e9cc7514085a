/** Submissions and cancellations keep the invariant. */
module CoordSubmit {
  import opened Seqs
  import opened Wire
  import opened CoordModel
  import opened CoordInvariant
  import opened CoordSteps

  // ---------------------------------------------------------------- joining and queueing

  /** A submission about to be placed: its caller waits for a reply and belongs to no item. */
  ghost predicate Placeable(cfg: Config, s: State, req: SubmitReq) {
    && !s.closing && req.part in s.partitions
    && ParkedReq(cfg, s.waiters, req)
  }

  lemma NotACaller(cfg: Config, s: State, X: set<nat>, req: SubmitReq, i: nat)
    requires ParkedReq(cfg, s.waiters, req) && i in s.items && ItemOk(cfg, s, X, i)
    ensures req.waiter !in s.items[i].waiters
  {
    if req.waiter in s.items[i].waiters {
      var ok := CallerOf(cfg, s.waiters, s.items[i], req.waiter);
      assert false;
    }
  }

  /** An item keeps its place when an unrelated caller changes. */
  lemma ItemKept(cfg: Config, s: State, s': State, w: nat, i: nat)
    requires i in s.items && ItemOk(cfg, s, {}, i) && w !in s.items[i].waiters
    requires i in s'.items && s'.items[i] == s.items[i]
    requires s.requestSeq <= s'.requestSeq && s.submitSeq <= s'.submitSeq
    requires s.partitions.Keys <= s'.partitions.Keys && s'.inflight == s.inflight && s'.engineDone == s.engineDone
    requires forall pk, j :: pk in s.partitions && j in s.partitions[pk].pending ==> j in s'.partitions[pk].pending
    requires forall v :: v in s.waiters && v != w ==> v in s'.waiters && s'.waiters[v] == s.waiters[v]
    ensures ItemOk(cfg, s', {}, i)
  {
    var it := s.items[i];
    forall v | v in it.waiters ensures CallerOf(cfg, s'.waiters, it, v) {
      assert CallerOf(cfg, s.waiters, it, v);
    }
    assert forall v :: v in it.waiters ==> CallerOf(cfg, s.waiters, it, v);
    CountFrame(s.waiters, s'.waiters, it.waiters);
  }

  /** The state after a join, field by field. */
  lemma JoinFields(s: State, req: SubmitReq, id: nat)
    requires req.part in s.partitions && id in s.items && req.waiter in s.waiters && s.waiters[req.waiter].admit == []
    ensures var s' := JoinItem(s, req, id);
            var it := s.items[id];
            && s' == s.(partitions := s'.partitions, items := s'.items, waiters := s'.waiters)
            && s'.partitions ==
                 s.partitions[req.part := s.partitions[req.part].(waiters := s.partitions[req.part].waiters + 1)]
            && s'.items == s.items[id := it.(waiters := it.waiters + [req.waiter],
              activeWaiters := it.activeWaiters + 1)]
            && s'.waiters == s.waiters[req.waiter := s.waiters[req.waiter].(home := id, admit := [Admitted])]
  {
    assert s.waiters[req.waiter].admit + [Admitted] == [Admitted];
    assert JoinItem(s, req, id).waiters ==
      s.waiters[req.waiter := s.waiters[req.waiter].(home := id, admit := [Admitted])];
  }

  lemma JoinedItem(cfg: Config, s: State, req: SubmitReq, id: nat)
    requires Placeable(cfg, s, req) && (s.engineDone ==> s.closing) && cfg.dedup
    requires id in s.items && ItemOk(cfg, s, {}, id) && s.waiters[req.waiter].active
    requires s.items[id].part == req.part && cfg.equal(s.items[id].key, req.key)
    ensures ItemOk(cfg, JoinItem(s, req, id), {}, id)
  {
    hide JoinItem, HeldOk;
    JoinFields(s, req, id);
    var s' := JoinItem(s, req, id);
    var it, it' := s.items[id], s'.items[id];
    NotACaller(cfg, s, {}, req, id);
    forall v | v in it'.waiters ensures CallerOf(cfg, s'.waiters, it', v) {
      assert v == req.waiter || CallerOf(cfg, s.waiters, it, v);
    }
    JoinedHeld(cfg, s, req, id);
  }

  /** The joined item stays where it was, with one more caller counted. */
  lemma JoinedHeld(cfg: Config, s: State, req: SubmitReq, id: nat)
    requires Placeable(cfg, s, req) && (s.engineDone ==> s.closing)
    requires id in s.items && s.items[id].part in s.partitions && HeldOk(s, s.items[id]) && s.waiters[req.waiter].active
    requires req.waiter !in s.items[id].waiters
    ensures var s' := JoinItem(s, req, id);
            id in s'.items && s'.items[id].part in s'.partitions && HeldOk(s', s'.items[id])
  {
    hide JoinItem;
    JoinFields(s, req, id);
    var s' := JoinItem(s, req, id);
    CountFrame(s.waiters, s'.waiters, s.items[id].waiters);
    CountAppend(s'.waiters, s.items[id].waiters, req.waiter);
    hide CountActive;
  }

  lemma JoinWaiter(s: State, req: SubmitReq, id: nat, w: nat)
    requires req.part in s.partitions && id in s.items && req.waiter in s.waiters && s.waiters[req.waiter].admit == []
    requires w in s.waiters && WaiterOk(s, w)
    ensures w in JoinItem(s, req, id).waiters && WaiterOk(JoinItem(s, req, id), w)
  {
    JoinFields(s, req, id);
  }

  lemma JoinKeeps(cfg: Config, law: Law, s: State, req: SubmitReq, id: nat)
    requires Core(cfg, s, {}) && Placeable(cfg, s, req) && cfg.dedup
    requires id in s.items && s.items[id].part == req.part && cfg.equal(s.items[id].key, req.key)
    ensures var s' := JoinItem(s, req, id);
            Core(cfg, s', {}) && Progress(law, s, s')
  {
    hide ItemOk, QueueOk, BatchOk, WaiterOk, DedupOk, JoinItem, Progress;
    var s' := JoinItem(s, req, id);
    JoinFields(s, req, id);
    JoinDedup(cfg, s, req, id);
    ActiveWhileUnadmitted(s, req.waiter);
    JoinProgress(law, s, req, id);
    forall i | i in s'.items ensures ItemOk(cfg, s', {}, i) {
      if i == id {
        JoinedItem(cfg, s, req, id);
      } else {
        NotACaller(cfg, s, {}, req, i);
        ItemKept(cfg, s, s', req.waiter, i);
      }
    }
    forall pk | pk in s'.partitions ensures QueueOk(cfg, s', pk) {
      SameQueue(cfg, s, s', pk);
    }
    forall n | n in s'.inflight ensures BatchOk(cfg, s', {}, n) {
      SameBatch(cfg, s, s', {}, {}, n);
    }
    forall w | w in s'.waiters ensures WaiterOk(s', w) {
      JoinWaiter(s, req, id, w);
    }
  }

  lemma JoinDedup(cfg: Config, s: State, req: SubmitReq, id: nat)
    requires req.part in s.partitions && id in s.items && req.waiter in s.waiters && s.waiters[req.waiter].admit == []
    requires DedupOk(cfg, s.items)
    ensures DedupOk(cfg, JoinItem(s, req, id).items)
  {
    hide JoinItem;
    JoinFields(s, req, id);
  }

  lemma JoinProgress(law: Law, s: State, req: SubmitReq, id: nat)
    requires req.part in s.partitions && id in s.items && req.waiter in s.waiters && s.waiters[req.waiter].admit == []
    requires s.waiters[req.waiter].active && s.waiters[req.waiter].ch == []
    ensures Progress(law, s, JoinItem(s, req, id))
  {
    hide JoinItem;
    JoinFields(s, req, id);
  }

  lemma ActiveWhileUnadmitted(s: State, w: nat)
    requires w in s.waiters && WaiterOk(s, w) && s.waiters[w].admit == []
    ensures s.waiters[w].active && s.waiters[w].ch == []
  {
  }

  /** The state after queueing, field by field. */
  lemma EnqueueFields(s: State, req: SubmitReq, at: Time)
    requires req.part in s.partitions && req.waiter in s.waiters && s.waiters[req.waiter].admit == []
    ensures var s' := Enqueue(s, req, at);
            var it := NewItem(s, req, at);
            var p := s.partitions[req.part];
            && s' == s.(partitions := s'.partitions, items := s'.items, waiters := s'.waiters,
              requestSeq := s.requestSeq + 1, submitSeq := s.submitSeq + 1)
            && s'.partitions == s.partitions[req.part := p.(
                 pending := p.pending + [it.id], active := p.active[req.hash := Bucket(p.active, req.hash) + [it.id]],
                 bytes := p.bytes + req.bytes, weight := p.weight + req.weight, waiters := p.waiters + 1,
                   live := p.live + 1)]
            && s'.items == s.items[it.id := it]
            && s'.waiters == s.waiters[req.waiter := s.waiters[req.waiter].(home := it.id, admit := [Admitted])]
  {
    assert s.waiters[req.waiter].admit + [Admitted] == [Admitted];
    assert Enqueue(s, req, at).waiters ==
      s.waiters[req.waiter := s.waiters[req.waiter].(home := s.requestSeq + 1, admit := [Admitted])];
  }

  lemma EnqueuedItem(cfg: Config, s: State, req: SubmitReq, at: Time)
    requires ConfigValid(cfg) && Placeable(cfg, s, req) && s.waiters[req.waiter].active
    ensures ItemOk(cfg, Enqueue(s, req, at), {}, s.requestSeq + 1)
  {
    var s' := Enqueue(s, req, at);
    var it := NewItem(s, req, at);
    EnqueueFields(s, req, at);
    hide Enqueue;
    assert CallerOf(cfg, s'.waiters, it, req.waiter);
    assert it.waiters[..0] == [];
    assert CountActive(s'.waiters, it.waiters) == 1;
  }

  lemma EnqueuedIndex(items: map<nat, Item>, pk: string, active: map<nat, seq<nat>>, it: Item)
    requires IndexOk(items, pk, active) && it.id !in items && it.part == pk
    ensures IndexOk(items[it.id := it], pk, active[it.hash := Bucket(active, it.hash) + [it.id]])
  {
  }

  lemma EnqueuedLimits(cfg: Config, s: State, req: SubmitReq, at: Time)
    requires Placeable(cfg, s, req) && s.requestSeq + 1 !in s.items
    requires WithinLimits(cfg, s.items, s.partitions[req.part])
    requires forall id :: id in s.partitions[req.part].pending ==> id in s.items
    requires OverLimits(cfg, s.partitions[req.part], req).None?
    ensures WithinLimits(cfg, Enqueue(s, req, at).items, Enqueue(s, req, at).partitions[req.part])
  {
    var s' := Enqueue(s, req, at);
    var it := NewItem(s, req, at);
    var p := s.partitions[req.part];
    EnqueueFields(s, req, at);
    hide Enqueue;
    TotalFrame(s.items, s'.items, Weight, p.pending);
    TotalFrame(s.items, s'.items, Bytes, p.pending);
    TotalAppend(s'.items, Weight, p.pending, it.id);
    TotalAppend(s'.items, Bytes, p.pending, it.id);
  }

  lemma EnqueuedQueue(cfg: Config, s: State, req: SubmitReq, at: Time)
    requires Placeable(cfg, s, req) && s.requestSeq + 1 !in s.items && QueueOk(cfg, s, req.part)
    requires OverLimits(cfg, s.partitions[req.part], req).None?
    ensures QueueOk(cfg, Enqueue(s, req, at), req.part)
  {
    hide Enqueue, IndexOk, WithinLimits, OverLimits, Bucket;
    var s' := Enqueue(s, req, at);
    var it := NewItem(s, req, at);
    EnqueueFields(s, req, at);
    EnqueuedLimits(cfg, s, req, at);
    assert LiveIds(s'.items, req.part) == LiveIds(s.items, req.part) + {it.id};
    EnqueuedIndex(s.items, req.part, s.partitions[req.part].active, it);
  }

  lemma OtherIndex(items: map<nat, Item>, pk: string, active: map<nat, seq<nat>>, it: Item)
    requires IndexOk(items, pk, active) && it.id !in items && it.part != pk
    ensures IndexOk(items[it.id := it], pk, active)
  {
  }

  /** Other queues do not notice a new item elsewhere. */
  lemma OtherQueue(cfg: Config, s: State, req: SubmitReq, at: Time, pk: string)
    requires pk in s.partitions && QueueOk(cfg, s, pk) && pk != req.part
    requires Placeable(cfg, s, req) && s.requestSeq + 1 !in s.items
    ensures QueueOk(cfg, Enqueue(s, req, at), pk)
  {
    hide Enqueue, IndexOk, Bucket;
    var s' := Enqueue(s, req, at);
    var p := s.partitions[pk];
    EnqueueFields(s, req, at);
    assert SameSizes(s.items, s'.items, p.pending);
    TotalFrame(s.items, s'.items, Weight, p.pending);
    TotalFrame(s.items, s'.items, Bytes, p.pending);
    assert LiveIds(s'.items, pk) == LiveIds(s.items, pk);
    OtherIndex(s.items, pk, p.active, NewItem(s, req, at));
  }

  lemma FreshItemId(cfg: Config, s: State)
    requires ItemsOk(cfg, s, {})
    ensures s.requestSeq + 1 !in s.items
  {
    if s.requestSeq + 1 in s.items {
      assert false;
    }
  }

  lemma {:induction false} FindEqualNone(cfg: Config, items: map<nat, Item>, bucket: seq<nat>, key: Key)
    ensures FindEqual(cfg, items, bucket, key).None? <==>
            forall id :: id in bucket && id in items ==> !cfg.equal(items[id].key, key)
    ensures FindEqual(cfg, items, bucket, key).Some? ==>
              var id := FindEqual(cfg, items, bucket, key).value;
              id in bucket && id in items && cfg.equal(items[id].key, key)
  {
    if bucket != [] {
      FindEqualNone(cfg, items, bucket[..|bucket| - 1], key);
      assert forall id :: id in bucket <==> id in bucket[..|bucket| - 1] || id == bucket[|bucket| - 1];
    }
  }

  /** A key absent from its bucket is absent from the partition, because equal keys hash alike. */
  lemma NoEqualLive(cfg: Config, s: State, req: SubmitReq, j: nat)
    requires ConfigValid(cfg) && Placeable(cfg, s, req) && QueueOk(cfg, s, req.part)
    requires j in s.items && s.items[j].part == req.part && s.items[j].hash == cfg.hash(s.items[j].key)
    requires FindEqual(cfg, s.items, Bucket(s.partitions[req.part].active, req.hash), req.key).None?
    ensures !cfg.equal(s.items[j].key, req.key) && !cfg.equal(req.key, s.items[j].key)
  {
    FindEqualNone(cfg, s.items, Bucket(s.partitions[req.part].active, req.hash), req.key);
  }

  lemma DedupEnqueue(cfg: Config, s: State, req: SubmitReq, at: Time)
    requires ConfigValid(cfg) && ItemsOk(cfg, s, {}) && QueuesOk(cfg, s) && DedupOk(cfg, s.items)
    requires Placeable(cfg, s, req) && s.requestSeq + 1 !in s.items
    requires cfg.dedup ==> FindEqual(cfg, s.items, Bucket(s.partitions[req.part].active, req.hash), req.key).None?
    ensures DedupOk(cfg, Enqueue(s, req, at).items)
  {
    hide QueueOk, ConfigValid, HeldOk, CallerOf;
    EnqueueFields(s, req, at);
    hide Enqueue;
    if cfg.dedup {
      forall j | j in s.items && s.items[j].part == req.part
        ensures !cfg.equal(s.items[j].key, req.key) && !cfg.equal(req.key, s.items[j].key)
      {
        assert ItemOk(cfg, s, {}, j);
        NoEqualLive(cfg, s, req, j);
      }
    }
  }

  lemma EnqueueKeeps(cfg: Config, law: Law, s: State, req: SubmitReq, at: Time)
    requires ConfigValid(cfg) && Core(cfg, s, {}) && Placeable(cfg, s, req)
    requires OverLimits(cfg, s.partitions[req.part], req).None?
    requires cfg.dedup ==> FindEqual(cfg, s.items, Bucket(s.partitions[req.part].active, req.hash), req.key).None?
    ensures var s' := Enqueue(s, req, at);
            Core(cfg, s', {}) && Progress(law, s, s')
  {
    FreshItemId(cfg, s);
    DedupEnqueue(cfg, s, req, at);
    EnqueueCore(cfg, law, s, req, at);
  }

  lemma EnqueueWaiter(s: State, req: SubmitReq, at: Time, w: nat)
    requires req.part in s.partitions && req.waiter in s.waiters && s.waiters[req.waiter].admit == []
    requires w in s.waiters && WaiterOk(s, w) && s.requestSeq + 1 !in s.items
    ensures w in Enqueue(s, req, at).waiters && WaiterOk(Enqueue(s, req, at), w)
  {
    EnqueueFields(s, req, at);
  }

  lemma EnqueueCore(cfg: Config, law: Law, s: State, req: SubmitReq, at: Time)
    requires ConfigValid(cfg) && Core(cfg, s, {}) && Placeable(cfg, s, req)
    requires s.requestSeq + 1 !in s.items && DedupOk(cfg, Enqueue(s, req, at).items)
    requires OverLimits(cfg, s.partitions[req.part], req).None?
    ensures var s' := Enqueue(s, req, at);
            Core(cfg, s', {}) && Progress(law, s, s')
  {
    hide ItemOk, QueueOk, BatchOk, WaiterOk, DedupOk, OverLimits, ConfigValid, Enqueue, Progress;
    var s' := Enqueue(s, req, at);
    EnqueueFields(s, req, at);
    ActiveWhileUnadmitted(s, req.waiter);
    EnqueueProgress(law, s, req, at);
    forall i | i in s'.items ensures ItemOk(cfg, s', {}, i) {
      if i == s.requestSeq + 1 {
        EnqueuedItem(cfg, s, req, at);
      } else {
        NotACaller(cfg, s, {}, req, i);
        ItemKept(cfg, s, s', req.waiter, i);
      }
    }
    forall pk | pk in s'.partitions ensures QueueOk(cfg, s', pk) {
      if pk == req.part {
        EnqueuedQueue(cfg, s, req, at);
      } else {
        OtherQueue(cfg, s, req, at, pk);
      }
    }
    forall n | n in s'.inflight ensures BatchOk(cfg, s', {}, n) {
      SameBatch(cfg, s, s', {}, {}, n);
    }
    forall w | w in s'.waiters ensures WaiterOk(s', w) {
      EnqueueWaiter(s, req, at, w);
    }
  }

  // ---------------------------------------------------------------- replies and parking

  lemma EnqueueProgress(law: Law, s: State, req: SubmitReq, at: Time)
    requires req.part in s.partitions && req.waiter in s.waiters && s.waiters[req.waiter].admit == []
    requires s.waiters[req.waiter].active && s.waiters[req.waiter].ch == [] && s.requestSeq + 1 !in s.items
    ensures Progress(law, s, Enqueue(s, req, at))
  {
    hide Enqueue;
    EnqueueFields(s, req, at);
  }

  // ---------------------------------------------------------------- replies and parking

  /** Refusing or redirecting a caller that waits for its reply. */
  lemma ReplyKeeps(cfg: Config, law: Law, s: State, w: nat, a: Admission)
    requires Core(cfg, s, {}) && w in s.waiters && s.waiters[w].admit == [] && a != Admitted
    ensures var s' := Reply(s, w, a);
            Core(cfg, s', {}) && Progress(law, s, s')
  {
    hide ItemOk, QueueOk, BatchOk, WaiterOk, DedupOk, Progress;
    var s' := Reply(s, w, a);
    ActiveWhileUnadmitted(s, w);
    ReplyProgress(law, s, w, a);
    forall i | i in s'.items ensures ItemOk(cfg, s', {}, i) {
      UnadmittedNotACaller(cfg, s, w, i);
      ItemKept(cfg, s, s', w, i);
    }
    forall pk | pk in s'.partitions ensures QueueOk(cfg, s', pk) {
      SameQueue(cfg, s, s', pk);
    }
    forall n | n in s'.inflight ensures BatchOk(cfg, s', {}, n) {
      SameBatch(cfg, s, s', {}, {}, n);
    }
    forall v | v in s'.waiters ensures WaiterOk(s', v) {
      ReplyWaiter(s, w, a, v);
    }
  }

  lemma ReplyProgress(law: Law, s: State, w: nat, a: Admission)
    requires w in s.waiters && s.waiters[w].active && s.waiters[w].ch == [] && s.waiters[w].admit == []
    ensures Progress(law, s, Reply(s, w, a))
  {
  }

  lemma ReplyWaiter(s: State, w: nat, a: Admission, v: nat)
    requires w in s.waiters && s.waiters[w].active && s.waiters[w].admit == [] && a != Admitted
    requires v in s.waiters && WaiterOk(s, v)
    ensures v in Reply(s, w, a).waiters && WaiterOk(Reply(s, w, a), v)
  {
    var admit := Reply(s, w, a).waiters[w].admit;
    assert admit == [a] && admit[0] != Admitted;
  }

  lemma UnadmittedNotACaller(cfg: Config, s: State, w: nat, i: nat)
    requires i in s.items && ItemOk(cfg, s, {}, i)
    requires w in s.waiters ==> s.waiters[w].admit == []
    ensures w !in s.items[i].waiters
  {
    if w in s.items[i].waiters {
      var ok := CallerOf(cfg, s.waiters, s.items[i], w);
      assert false;
    }
  }

  /** Dropping the answered submission from the parked list keeps the others parked. */
  lemma ParkedDrop(cfg: Config, ws: map<nat, Waiter>, ws': map<nat, Waiter>, a: seq<SubmitReq>, req: SubmitReq,
                   b: seq<SubmitReq>)
    requires ParkedOk(cfg, ws, a + [req] + b)
    requires forall w :: w in ws && w != req.waiter ==> w in ws' && ws'[w] == ws[w]
    ensures ParkedOk(cfg, ws', a + b)
  {
    var all, left := a + [req] + b, a + b;
    assert all[|a|] == req;
    forall i | 0 <= i < |left| ensures ParkedReq(cfg, ws', left[i]) && left[i].waiter != req.waiter {
      var j := if i < |a| then i else i + 1;
      assert left[i] == all[j] && ParkedReq(cfg, ws, all[j]);
    }
    forall i, j | 0 <= i < j < |left| ensures left[i].waiter != left[j].waiter {
      assert left[i] == all[if i < |a| then i else i + 1];
      assert left[j] == all[if j < |a| then j else j + 1];
    }
  }

  // ---------------------------------------------------------------- the submit handler

  /** What a handler leaves of the barriers. */
  ghost predicate SameBarriers(s: State, s': State) {
    s'.barriers == s.barriers && s'.signals == s.signals
  }

  lemma PlaceKeeps(cfg: Config, law: Law, s: State, req: SubmitReq, at: Time, rest: seq<SubmitReq>)
    requires ConfigValid(cfg) && Core(cfg, s, {}) && Placeable(cfg, s, req)
    requires ParkedOk(cfg, s.waiters, s.blocked + [req] + rest)
    ensures var s' := Place(cfg, s, req, at);
            Core(cfg, s', {}) && Progress(law, s, s') && ParkedOk(cfg, s'.waiters, s'.blocked + rest)
              && SameBarriers(s, s')
  {
    hide QueueOk, ConfigValid, ItemsOk, WaitersOk, BatchesOk, CountersOk, DedupOk, ParkedOk, OverLimits, JoinItem,
      Enqueue, Overflow, Progress;
    var p := s.partitions[req.part];
    var bucket := Bucket(p.active, req.hash);
    var equal := if cfg.dedup then FindEqual(cfg, s.items, bucket, req.key) else None;
    FindEqualNone(cfg, s.items, bucket, req.key);
    if equal.Some? {
      BucketPart(cfg, s, req.part, req.hash, equal.value);
      JoinKeeps(cfg, law, s, req, equal.value);
      JoinFields(s, req, equal.value);
      ParkedDrop(cfg, s.waiters, JoinItem(s, req, equal.value).waiters, s.blocked, req, rest);
    } else {
      var over := OverLimits(cfg, p, req);
      if over.Some? {
        OverflowKeeps(cfg, law, s, req, QueueFull(over.value), rest);
      } else {
        EnqueueKeeps(cfg, law, s, req, at);
        EnqueueFields(s, req, at);
        ParkedDrop(cfg, s.waiters, Enqueue(s, req, at).waiters, s.blocked, req, rest);
      }
    }
  }

  lemma BucketPart(cfg: Config, s: State, pk: string, h: nat, id: nat)
    requires pk in s.partitions && QueueOk(cfg, s, pk) && id in Bucket(s.partitions[pk].active, h)
    ensures id in s.items && s.items[id].part == pk
  {
  }

  lemma NextParked(cfg: Config, ws: map<nat, Waiter>, a: seq<SubmitReq>, req: SubmitReq, b: seq<SubmitReq>)
    requires ParkedOk(cfg, ws, a + [req] + b)
    ensures ParkedReq(cfg, ws, req)
  {
    assert (a + [req] + b)[|a|] == req;
  }

  lemma OverflowKeeps(cfg: Config, law: Law, s: State, req: SubmitReq, fault: Fault, rest: seq<SubmitReq>)
    requires Core(cfg, s, {}) && ParkedOk(cfg, s.waiters, s.blocked + [req] + rest)
    ensures var s' := Overflow(cfg, s, req, fault);
            && Core(cfg, s', {}) && Progress(law, s, s') && ParkedOk(cfg, s'.waiters, s'.blocked + rest)
            && SameBarriers(s, s')
  {
    hide Core, ParkedOk, Progress, Reply;
    match cfg.overflow
    case Fallback => AnswerKeeps(cfg, law, s, req, RunFallback, rest);
    case Reject => AnswerKeeps(cfg, law, s, req, Refused(fault), rest);
    case Block => ParkKeeps(cfg, law, s, s.blocked + [req]);
  }

  /** A submission answered at once leaves the others parked. */
  lemma AnswerKeeps(cfg: Config, law: Law, s: State, req: SubmitReq, a: Admission, rest: seq<SubmitReq>)
    requires Core(cfg, s, {}) && ParkedOk(cfg, s.waiters, s.blocked + [req] + rest) && a != Admitted
    ensures var s' := Reply(s, req.waiter, a);
            && Core(cfg, s', {}) && Progress(law, s, s') && ParkedOk(cfg, s'.waiters, s'.blocked + rest)
            && SameBarriers(s, s')
  {
    hide Core, ParkedOk, Progress;
    NextParked(cfg, s.waiters, s.blocked, req, rest);
    ReplyKeeps(cfg, law, s, req.waiter, a);
    ParkedDrop(cfg, s.waiters, Reply(s, req.waiter, a).waiters, s.blocked, req, rest);
  }

  lemma ParkKeeps(cfg: Config, law: Law, s: State, blocked: seq<SubmitReq>)
    requires Core(cfg, s, {})
    ensures Core(cfg, s.(blocked := blocked), {}) && Progress(law, s, s.(blocked := blocked))
  {
    OnlyControl(cfg, law, s, s.(blocked := blocked));
  }

  /** Fields outside queues, batches, items and callers do not matter to them. */
  lemma OnlyControl(cfg: Config, law: Law, s: State, s': State)
    requires Core(cfg, s, {})
    requires s'.partitions == s.partitions && s'.items == s.items && s'.waiters == s.waiters
    requires s'.inflight == s.inflight
    requires s'.requestSeq >= s.requestSeq && s'.submitSeq == s.submitSeq && s'.batchSeq == s.batchSeq
    requires s'.activeProvider == s.activeProvider && s'.engineDone == s.engineDone
    requires CountersOk(cfg, s') && SignalsGrow(s, s')
    ensures Core(cfg, s', {}) && Progress(law, s, s')
  {
    hide ItemOk, QueueOk, BatchOk, DedupOk, WaiterOk, CountersOk, SignalsGrow;
    forall i | i in s'.items ensures ItemOk(cfg, s', {}, i) {
      ControlItem(cfg, s, s', i);
    }
    forall pk | pk in s'.partitions ensures QueueOk(cfg, s', pk) {
      SameQueue(cfg, s, s', pk);
    }
    forall n | n in s'.inflight ensures BatchOk(cfg, s', {}, n) {
      SameBatch(cfg, s, s', {}, {}, n);
    }
    forall w | w in s'.waiters ensures WaiterOk(s', w) {
      SameWaiter(s, s', w);
    }
  }

  lemma ControlItem(cfg: Config, s: State, s': State, i: nat)
    requires i in s.items && ItemOk(cfg, s, {}, i)
    requires s'.partitions == s.partitions && s'.items == s.items && s'.waiters == s.waiters
    requires s'.inflight == s.inflight
    requires s'.requestSeq >= s.requestSeq && s'.submitSeq == s.submitSeq && s'.engineDone == s.engineDone
    ensures ItemOk(cfg, s', {}, i)
  {
  }

  lemma SameProgress(law: Law, s: State, t: State, u: State)
    requires Progress(law, t, u) && t.waiters == s.waiters && t.items == s.items && t.signals == s.signals
    requires t.submitSeq == s.submitSeq && t.requestSeq == s.requestSeq && t.batchSeq == s.batchSeq
    requires forall n :: n in t.inflight ==> n in s.inflight && t.inflight[n] == s.inflight[n]
    ensures Progress(law, s, u)
  {
  }

  /** Handling a submission: it is refused, redirected, parked, joined or queued, and answered at most once. */
  lemma SubmitKeeps(cfg: Config, law: Law, s: State, req: SubmitReq, at: Time, rest: seq<SubmitReq>)
    requires ConfigValid(cfg) && Core(cfg, s, {})
    requires ParkedOk(cfg, s.waiters, s.blocked + [req] + rest)
    ensures var s' := HandleSubmit(cfg, s, req, at);
            Core(cfg, s', {}) && Progress(law, s, s') && ParkedOk(cfg, s'.waiters, s'.blocked + rest)
              && SameBarriers(s, s')
  {
    hide Core, ParkedOk, Progress, ConfigValid, Place, Overflow, Reply, FRESH_PARTITION;
    NextParked(cfg, s.waiters, s.blocked, req, rest);
    if s.closing {
      AnswerKeeps(cfg, law, s, req, Refused(EngineClosing), rest);
    } else if req.part in s.partitions {
      PlaceKeeps(cfg, law, s, req, at, rest);
    } else if cfg.limits.maxPartitions > 0 && |s.partitions| >= cfg.limits.maxPartitions {
      OverflowKeeps(cfg, law, s, req, PartitionLimit, rest);
    } else {
      NewPartitionKeeps(cfg, s, req.part);
      var t := SetPartition(s, req.part, FRESH_PARTITION);
      PlaceKeeps(cfg, law, t, req, at, rest);
      SameProgress(law, s, t, HandleSubmit(cfg, s, req, at));
    }
  }

  lemma {:induction false} ResubmitKeeps(cfg: Config, law: Law, s: State, reqs: seq<SubmitReq>, at: Time,
                                         rest: seq<SubmitReq>)
    requires ConfigValid(cfg) && Core(cfg, s, {}) && s.blocked == []
    requires ParkedOk(cfg, s.waiters, reqs + rest)
    ensures var s' := Resubmit(cfg, s, reqs, at);
            Core(cfg, s', {}) && Progress(law, s, s') && ParkedOk(cfg, s'.waiters, s'.blocked + rest)
              && SameBarriers(s, s')
  {
    hide Core, ConfigValid, ParkedOk, Progress, HandleSubmit;
    if reqs == [] {
      NoChange(law, s);
      assert reqs + rest == s.blocked + rest;
    } else {
      var n := |reqs| - 1;
      assert reqs[..n] + ([reqs[n]] + rest) == reqs + rest;
      ResubmitKeeps(cfg, law, s, reqs[..n], at, [reqs[n]] + rest);
      var t := Resubmit(cfg, s, reqs[..n], at);
      assert t.blocked + ([reqs[n]] + rest) == t.blocked + [reqs[n]] + rest;
      SubmitKeeps(cfg, law, t, reqs[n], at, rest);
      ProgressTrans(law, s, t, HandleSubmit(cfg, t, reqs[n], at));
    }
  }

  lemma RetryKeeps(cfg: Config, law: Law, s: State, at: Time)
    requires ConfigValid(cfg) && Core(cfg, s, {}) && ParkedOk(cfg, s.waiters, s.blocked)
    ensures var s' := RetryBlocked(cfg, s, at);
            Core(cfg, s', {}) && Progress(law, s, s') && ParkedOk(cfg, s'.waiters, s'.blocked) && SameBarriers(s, s')
  {
    hide Core, ConfigValid, ParkedOk, Progress;
    var s1 := s.(blocked := []);
    ParkKeeps(cfg, law, s, []);
    assert s.blocked + [] == s.blocked;
    ResubmitKeeps(cfg, law, s1, s.blocked, at, []);
    var s' := RetryBlocked(cfg, s, at);
    assert s'.blocked + [] == s'.blocked;
    ProgressTrans(law, s, s1, s');
  }
}
