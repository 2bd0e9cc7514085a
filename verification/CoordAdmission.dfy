/**
 What a submission comes to (refused, joined to an equal live item, queued, or handed to the overflow
 policy) and what a caller's cancellation removes.
 */
module CoordAdmission {
  import opened Seqs
  import opened CoordModel
  import opened CoordInvariant
  import opened CoordSteps
  import opened CoordSubmit

  /** A live item of the same partition with an equal key, which deduplication would share. */
  ghost predicate Twin(cfg: Config, s: State, req: SubmitReq, id: nat) {
    cfg.dedup && id in s.items && s.items[id].part == req.part && cfg.equal(s.items[id].key, req.key)
  }

  ghost predicate HasTwin(cfg: Config, s: State, req: SubmitReq) {
    exists id :: Twin(cfg, s, req, id)
  }

  /** The partition of a submission, an empty one if it would have to be created. */
  function Standing(s: State, pk: string): (p: Partition) {
    if pk in s.partitions then s.partitions[pk] else Partition([], map[], 0, 0, 0, 0, [])
  }

  /** One more partition would be too many. */
  predicate NoPartition(cfg: Config, s: State, pk: string) {
    pk !in s.partitions && cfg.limits.maxPartitions > 0 && |s.partitions| + 1 > cfg.limits.maxPartitions
  }

  /** With the submission the queue would break this limit of its partition. */
  predicate Breaks(l: QueueLimits, p: Partition, req: SubmitReq, limit: string) {
    || (limit == "items" && l.maxItems > 0 && |p.pending| + 1 > l.maxItems)
    || (limit == "waiters" && l.maxWaiters > 0 && p.waiters + 1 > l.maxWaiters)
    || (limit == "bytes" && l.maxBytes > 0 && p.bytes + req.bytes > l.maxBytes)
    || (limit == "weight" && l.maxWeight > 0 && p.weight + req.weight > l.maxWeight)
  }

  /** The partition exists or may be created, and one more item fits its queue by number, callers, bytes and weight. */
  predicate Room(cfg: Config, s: State, req: SubmitReq) {
    var l, p := cfg.limits, Standing(s, req.part);
    && !NoPartition(cfg, s, req.part)
    && (l.maxItems > 0 ==> |p.pending| + 1 <= l.maxItems)
    && (l.maxWaiters > 0 ==> p.waiters + 1 <= l.maxWaiters)
    && (l.maxBytes > 0 ==> p.bytes + req.bytes <= l.maxBytes)
    && (l.maxWeight > 0 ==> p.weight + req.weight <= l.maxWeight)
  }

  lemma RoomIs(cfg: Config, s: State, req: SubmitReq)
    ensures var over := OverLimits(cfg, Standing(s, req.part), req);
            && (!NoPartition(cfg, s, req.part) ==> (over.None? <==> Room(cfg, s, req)))
            && (over.Some? ==> Breaks(cfg.limits, Standing(s, req.part), req, over.value))
  {
  }

  function Replies(s: State, w: nat): (r: seq<Admission>) {
    if w in s.waiters then s.waiters[w].admit else []
  }

  /** Everything but partition `pk`, item `id` and caller `w` is as it was. */
  ghost predicate Untouched(s: State, s': State, pk: string, id: nat, w: nat) {
    && (forall q :: q != pk ==> (q in s'.partitions <==> q in s.partitions))
    && (forall q :: q != pk && q in s.partitions ==> s'.partitions[q] == s.partitions[q])
    && (forall j :: j != id ==> (j in s'.items <==> j in s.items))
    && (forall j :: j != id && j in s.items ==> s'.items[j] == s.items[j])
    && s'.waiters.Keys == s.waiters.Keys
    && (forall v :: v != w && v in s.waiters ==> s'.waiters[v] == s.waiters[v])
    && s'.inflight == s.inflight && s'.blocked == s.blocked
  }

  /** The caller shares the twin: no new item, one more caller on it, and the queues as they were. */
  ghost predicate Joined(s: State, s': State, req: SubmitReq, id: nat) {
    && Replies(s', req.waiter) == [Admitted] && s'.waiters[req.waiter].home == id
    && id in s.items && id in s'.items && Untouched(s, s', req.part, id, req.waiter)
    && s'.items[id].waiters == s.items[id].waiters + [req.waiter]
    && s'.items[id].activeWaiters == s.items[id].activeWaiters + 1
    && req.part in s.partitions && req.part in s'.partitions
    && s'.partitions[req.part] == s.partitions[req.part].(waiters := s.partitions[req.part].waiters + 1)
    && s'.submitSeq == s.submitSeq
  }

  /** A new item for this caller alone is last in its queue, and the totals grow by it. */
  ghost predicate Queued(s: State, s': State, req: SubmitReq, at: Time) {
    var id := s.requestSeq + 1;
    && Replies(s', req.waiter) == [Admitted] && s'.waiters[req.waiter].home == id
    && id !in s.items && id in s'.items && Untouched(s, s', req.part, id, req.waiter)
    && s'.items[id].key == req.key && s'.items[id].part == req.part && s'.items[id].waiters == [req.waiter]
    && s'.items[id].weight == req.weight && s'.items[id].bytes == req.bytes && s'.items[id].enqueue == at
    && s'.items[id].order == s.submitSeq + 1 == s'.submitSeq && !s'.items[id].dispatched
    && req.part in s'.partitions
    && var p, p' := Standing(s, req.part), s'.partitions[req.part];
       && p'.pending == p.pending + [id] && p'.waiters == p.waiters + 1
       && p'.bytes == p.bytes + req.bytes && p'.weight == p.weight + req.weight
  }

  /** The fault that a full queue or too many partitions give. */
  ghost predicate FaultOf(cfg: Config, s: State, req: SubmitReq, fault: Fault) {
    if NoPartition(cfg, s, req.part) then fault == PartitionLimit
    else fault.QueueFull? && Breaks(cfg.limits, Standing(s, req.part), req, fault.category)
  }

  /** The overflow policy decided; nothing was queued, and a refusal names a limit that would be broken. */
  ghost predicate TurnedAway(cfg: Config, s: State, s': State, req: SubmitReq) {
    && s'.items == s.items && s'.submitSeq == s.submitSeq
    && match cfg.overflow
    case Reject =>
      && s'.blocked == s.blocked && |Replies(s', req.waiter)| == 1 && Replies(s', req.waiter)[0].Refused?
      && FaultOf(cfg, s, req, Replies(s', req.waiter)[0].fault)
    case Fallback => Replies(s', req.waiter) == [RunFallback] && s'.blocked == s.blocked
    case Block => Replies(s', req.waiter) == [] && s'.blocked == s.blocked + [req]
  }

  /** The hash bucket finds a twin exactly when there is one, whatever else collides there. */
  lemma TwinFound(cfg: Config, s: State, req: SubmitReq)
    requires ConfigValid(cfg) && req.part in s.partitions && QueueOk(cfg, s, req.part) && ItemsOk(cfg, s, {})
    requires cfg.dedup && req.hash == cfg.hash(req.key)
    ensures var r := FindEqual(cfg, s.items, Bucket(s.partitions[req.part].active, req.hash), req.key);
            && (r.Some? ==> Twin(cfg, s, req, r.value))
            && (HasTwin(cfg, s, req) ==> r.Some?)
  {
    hide HeldOk, WithinLimits;
    var bucket := Bucket(s.partitions[req.part].active, req.hash);
    FindEqualNone(cfg, s.items, bucket, req.key);
    forall id | Twin(cfg, s, req, id) ensures id in bucket {
      assert ItemOk(cfg, s, {}, id);
    }
  }

  /** There is at most one twin. */
  lemma TwinUnique(cfg: Config, s: State, req: SubmitReq, a: nat, b: nat)
    requires ConfigValid(cfg) && DedupOk(cfg, s.items) && Twin(cfg, s, req, a) && Twin(cfg, s, req, b)
    ensures a == b
  {
    assert cfg.equal(req.key, s.items[b].key);
  }

  lemma PlaceOutcome(cfg: Config, s: State, req: SubmitReq, at: Time)
    requires ConfigValid(cfg) && req.part in s.partitions && QueueOk(cfg, s, req.part) && ItemsOk(cfg, s, {})
    requires DedupOk(cfg, s.items)
    requires req.waiter in s.waiters && Replies(s, req.waiter) == [] && req.hash == cfg.hash(req.key)
    ensures var s' := Place(cfg, s, req, at);
            && (forall id :: Twin(cfg, s, req, id) ==> Joined(s, s', req, id))
            && (!HasTwin(cfg, s, req) && Room(cfg, s, req) ==> Queued(s, s', req, at))
            && (!HasTwin(cfg, s, req) && !Room(cfg, s, req) ==> TurnedAway(cfg, s, s', req))
  {
    hide ConfigValid, QueueOk, ItemsOk, DedupOk, FindEqual, Bucket, JoinItem, Enqueue, Overflow, Joined, Queued,
      TurnedAway, OverLimits, Twin;
    var found := FindEqual(cfg, s.items, Bucket(s.partitions[req.part].active, req.hash), req.key);
    var over := OverLimits(cfg, s.partitions[req.part], req);
    if cfg.dedup {
      TwinFound(cfg, s, req);
    }
    RoomIs(cfg, s, req);
    hide Room, Breaks;
    if HasTwin(cfg, s, req) {
      TwinDedup(cfg, s, req);
      TwinKnown(cfg, s, req, found.value);
      JoinGives(s, req, found.value);
      forall id | Twin(cfg, s, req, id) ensures id == found.value {
        TwinUnique(cfg, s, req, id, found.value);
      }
    } else if over.None? {
      FreshItemId(cfg, s);
      EnqueueGives(s, req, at);
    } else {
      OverflowGives(cfg, s, req, QueueFull(over.value));
    }
  }

  lemma TwinKnown(cfg: Config, s: State, req: SubmitReq, id: nat)
    requires Twin(cfg, s, req, id)
    ensures id in s.items
  {
  }

  lemma TwinDedup(cfg: Config, s: State, req: SubmitReq)
    requires HasTwin(cfg, s, req)
    ensures cfg.dedup
  {
  }

  lemma JoinGives(s: State, req: SubmitReq, id: nat)
    requires req.part in s.partitions && req.waiter in s.waiters && Replies(s, req.waiter) == [] && id in s.items
    ensures Joined(s, JoinItem(s, req, id), req, id)
  {
    hide JoinItem;
    JoinFields(s, req, id);
  }

  lemma EnqueueGives(s: State, req: SubmitReq, at: Time)
    requires req.part in s.partitions && req.waiter in s.waiters && Replies(s, req.waiter) == []
    requires s.requestSeq + 1 !in s.items
    ensures Queued(s, Enqueue(s, req, at), req, at)
  {
    hide Enqueue, Bucket;
    EnqueueFields(s, req, at);
  }

  lemma OverflowGives(cfg: Config, s: State, req: SubmitReq, fault: Fault)
    requires req.waiter in s.waiters && Replies(s, req.waiter) == [] && FaultOf(cfg, s, req, fault)
    ensures TurnedAway(cfg, s, Overflow(cfg, s, req, fault), req)
  {
    hide Reply, Replies, FaultOf;
    ReplyGives(s, req.waiter, RunFallback);
    ReplyGives(s, req.waiter, Refused(fault));
    SameReplies(s, s.(blocked := s.blocked + [req]), req.waiter);
  }

  lemma SameReplies(s: State, s': State, w: nat)
    requires s'.waiters == s.waiters
    ensures Replies(s', w) == Replies(s, w)
  {
  }

  lemma ReplyGives(s: State, w: nat, a: Admission)
    requires w in s.waiters && Replies(s, w) == []
    ensures var s' := Reply(s, w, a);
            && Replies(s', w) == [a] && s'.items == s.items && s'.submitSeq == s.submitSeq && s'.blocked == s.blocked
  {
  }

  /**
   Exactly one of four things happens to a submission: it is refused because the engine is closing, it
   joins its twin, it is queued last in its partition, or the overflow policy turns it away.
   */
  lemma SubmitOutcome(cfg: Config, s: State, req: SubmitReq, at: Time)
    requires ConfigValid(cfg) && Inv(cfg, s)
    requires req.waiter in s.waiters && Replies(s, req.waiter) == [] && req.hash == cfg.hash(req.key)
    ensures var s' := HandleSubmit(cfg, s, req, at);
            && (s.closing ==>
                  Replies(s', req.waiter) == [Refused(EngineClosing)] && s'.items == s.items && s'.blocked == s.blocked)
            && (!s.closing ==> forall id :: Twin(cfg, s, req, id) ==> Joined(s, s', req, id))
            && (!s.closing && !HasTwin(cfg, s, req) && Room(cfg, s, req) ==> Queued(s, s', req, at))
            && (!s.closing && !HasTwin(cfg, s, req) && !Room(cfg, s, req) ==> TurnedAway(cfg, s, s', req))
  {
    hide ConfigValid, ParkedOk, BarriersOk, BatchesOk, WaitersOk, CountersOk, ItemsOk, QueuesOk, DedupOk, QueueOk,
      Place, Overflow, Joined, Queued, TurnedAway, Twin;
    if !s.closing {
      if req.part in s.partitions {
        PartOk(cfg, s, req.part);
        PlaceOutcome(cfg, s, req, at);
      } else {
        NoTwinYet(cfg, s, req);
        if NoPartition(cfg, s, req.part) {
          OverflowGives(cfg, s, req, PartitionLimit);
        } else {
          FreshPlace(cfg, s, req, at);
        }
      }
    }
  }

  lemma FreshQueued(s: State, s': State, req: SubmitReq, at: Time)
    requires req.part !in s.partitions && Queued(SetPartition(s, req.part, FRESH_PARTITION), s', req, at)
    ensures Queued(s, s', req, at)
  {
    var t := SetPartition(s, req.part, FRESH_PARTITION);
    assert forall q :: q != req.part ==> (q in t.partitions <==> q in s.partitions);
    assert forall q :: q != req.part && q in s.partitions ==> t.partitions[q] == s.partitions[q];
  }

  lemma FreshTurned(cfg: Config, s: State, s': State, req: SubmitReq)
    requires req.part !in s.partitions && !NoPartition(cfg, s, req.part)
    requires TurnedAway(cfg, SetPartition(s, req.part, FRESH_PARTITION), s', req)
    ensures TurnedAway(cfg, s, s', req)
  {
    hide Breaks;
  }

  lemma FreshRoom(cfg: Config, s: State, req: SubmitReq)
    requires req.part !in s.partitions && !NoPartition(cfg, s, req.part)
    ensures Room(cfg, SetPartition(s, req.part, FRESH_PARTITION), req) == Room(cfg, s, req)
  {
  }

  /** Creating the partition first changes nothing for the outcome. */
  lemma FreshPlace(cfg: Config, s: State, req: SubmitReq, at: Time)
    requires ConfigValid(cfg) && Inv(cfg, s) && req.part !in s.partitions && !HasTwin(cfg, s, req)
    requires req.waiter in s.waiters && Replies(s, req.waiter) == [] && req.hash == cfg.hash(req.key)
    requires !NoPartition(cfg, s, req.part)
    ensures var t := SetPartition(s, req.part, FRESH_PARTITION); var s' := Place(cfg, t, req, at);
            if Room(cfg, s, req) then Queued(s, s', req, at) else TurnedAway(cfg, s, s', req)
  {
    hide ConfigValid, ParkedOk, BarriersOk, Core, ItemsOk, DedupOk, QueueOk, Place, Room, Queued, TurnedAway;
    var t := SetPartition(s, req.part, FRESH_PARTITION);
    FreshOk(cfg, s, req.part);
    PlaceOutcome(cfg, t, req, at);
    FreshRoom(cfg, s, req);
    forall id ensures !Twin(cfg, t, req, id) {
      assert !Twin(cfg, s, req, id);
    }
    assert !HasTwin(cfg, t, req);
    if Room(cfg, s, req) {
      FreshQueued(s, Place(cfg, t, req, at), req, at);
    } else {
      FreshTurned(cfg, s, Place(cfg, t, req, at), req);
    }
  }

  lemma PartOk(cfg: Config, s: State, pk: string)
    requires QueuesOk(cfg, s) && pk in s.partitions
    ensures QueueOk(cfg, s, pk)
  {
  }

  lemma NoTwinYet(cfg: Config, s: State, req: SubmitReq)
    requires ItemsOk(cfg, s, {}) && req.part !in s.partitions
    ensures !HasTwin(cfg, s, req)
  {
    hide HeldOk, CallerOf;
    forall id | id in s.items ensures s.items[id].part != req.part {
      assert ItemOk(cfg, s, {}, id);
    }
  }

  lemma FreshOk(cfg: Config, s: State, pk: string)
    requires Core(cfg, s, {}) && pk !in s.partitions
    ensures var t := SetPartition(s, pk, FRESH_PARTITION);
            QueueOk(cfg, t, pk) && ItemsOk(cfg, t, {}) && DedupOk(cfg, t.items)
  {
    hide ItemsOk, QueuesOk, BatchesOk, WaitersOk, DedupOk, CountersOk, QueueOk, Progress;
    NewPartitionKeeps(cfg, s, pk);
    PartOk(cfg, SetPartition(s, pk, FRESH_PARTITION), pk);
  }

  // ---------------------------------------------------------------- cancellation

  /** Some other caller of the same item still waits. */
  ghost predicate Shared(s: State, w: nat)
    requires w in s.waiters && s.waiters[w].home in s.items
  {
    exists v :: v in s.items[s.waiters[w].home].waiters && v != w && v in s.waiters && s.waiters[v].active
  }

  lemma LastCaller(cfg: Config, s: State, pk: string, w: nat)
    requires Attached(s, pk, w) && ItemOk(cfg, s, {}, s.waiters[w].home)
    ensures s.items[s.waiters[w].home].activeWaiters == 1 <==> !Shared(s, w)
  {
    var it := s.items[s.waiters[w].home];
    var after := s.waiters[w := s.waiters[w].(active := false)];
    CountSwitchOff(s.waiters, after, it.waiters, w);
    CountZero(after, it.waiters);
    CountZero(s.waiters, it.waiters);
    hide CountActive, CallerOf;
  }

  /** One caller fewer in the partition, and one item fewer in queue and totals if the item goes too. */
  ghost predicate Leaves(p: Partition, it: Item, gone: bool, p': Partition) {
    && p'.waiters == p.waiters - 1
    && p'.pending == (if gone then RemoveFirst(p.pending, it.id) else p.pending)
    && p'.bytes == p.bytes - (if gone then it.bytes else 0) && p'.weight == p.weight - (if gone then it.weight else 0)
  }

  /**
   A cancellation that finds its caller waiting touches that caller alone, who is left unanswered; the
   item goes with it exactly when it is still queued and nobody else waits for it. Otherwise it does nothing.
   */
  lemma CancelOutcome(cfg: Config, s: State, pk: string, w: nat)
    requires Inv(cfg, s)
    ensures !Attached(s, pk, w) ==> HandleCancel(s, pk, w) == s
    ensures Attached(s, pk, w) ==>
            var s' := HandleCancel(s, pk, w); var id := s.waiters[w].home;
            && s'.waiters == s.waiters[w := s.waiters[w].(active := false)] && s'.waiters[w].ch == []
            && (id in s'.items <==> s.items[id].dispatched || Shared(s, w))
            && (forall j :: j != id ==>
                              (j in s'.items <==> j in s.items) && (j in s.items ==> s'.items[j] == s.items[j]))
            && pk in s.partitions && OnlyLeaves(s, s', pk, s.items[id], id !in s'.items)
  {
    hide OnlyLeaves, Shared, ItemOk, QueuesOk, BatchesOk, DedupOk, CountersOk, ParkedOk, BarriersOk, RemovePending;
    if Attached(s, pk, w) {
      var id := s.waiters[w].home;
      assert ItemOk(cfg, s, {}, id) && WaiterOk(s, w);
      LastCaller(cfg, s, pk, w);
      HomePartition(cfg, s, id);
      RemovePendingItems(Detach(s, pk, w), pk, id);
      CancelPartitions(s, pk, w);
    }
  }

  /** Every partition but `pk` is as it was, and `pk` lost a caller, with its item if `gone`, or is retired. */
  ghost predicate OnlyLeaves(s: State, s': State, pk: string, it: Item, gone: bool)
    requires pk in s.partitions
  {
    && (forall q :: q in s'.partitions ==> q in s.partitions)
    && (forall q :: q in s.partitions && q != pk ==> q in s'.partitions && s'.partitions[q] == s.partitions[q])
    && (pk in s'.partitions ==> Leaves(s.partitions[pk], it, gone, s'.partitions[pk]))
  }

  lemma DropPartition(s: State, pk: string, id: nat)
    requires pk in s.partitions && id in s.items
    ensures var s' := DropItem(s, pk, id);
            && s'.partitions.Keys == s.partitions.Keys
            && (forall q :: q in s.partitions && q != pk ==> s'.partitions[q] == s.partitions[q])
            && var p, p' := s.partitions[pk], s'.partitions[pk];
               p'.waiters == p.waiters && p'.pending == p.pending && p'.bytes == p.bytes && p'.weight == p.weight
  {
    hide RemoveActive;
  }

  lemma RetireOnly(s: State, pk: string)
    ensures var s' := MaybeRetire(s, pk);
            && (forall q :: q in s'.partitions ==> q in s.partitions && s'.partitions[q] == s.partitions[q])
            && (forall q :: q in s.partitions && q != pk ==> q in s'.partitions)
  {
  }

  lemma RemoveLeaves(s: State, pk: string, w: nat)
    requires Attached(s, pk, w) && pk in s.partitions && s.items[s.waiters[w].home].id == s.waiters[w].home
    ensures OnlyLeaves(s, RemovePending(Detach(s, pk, w), pk, s.waiters[w].home), pk, s.items[s.waiters[w].home], true)
  {
    hide RemoveFirst, DropItem, MaybeRetire;
    var id, s1 := s.waiters[w].home, Detach(s, pk, w);
    var p, it := s1.partitions[pk], s1.items[id];
    var t := SetPartition(s1, pk,
      p.(pending := RemoveFirst(p.pending, id), bytes := p.bytes - it.bytes, weight := p.weight - it.weight));
    DropPartition(t, pk, id);
    RetireOnly(DropItem(t, pk, id), pk);
    assert RemovePending(s1, pk, id) == MaybeRetire(DropItem(t, pk, id), pk);
  }

  lemma DetachLeaves(s: State, pk: string, w: nat, batch: nat)
    requires Attached(s, pk, w) && pk in s.partitions
    ensures OnlyLeaves(s, Detach(s, pk, w), pk, s.items[s.waiters[w].home], false)
    ensures OnlyLeaves(s, Abandon(Detach(s, pk, w), batch), pk, s.items[s.waiters[w].home], false)
  {
  }

  lemma CancelPartitions(s: State, pk: string, w: nat)
    requires Attached(s, pk, w) && pk in s.partitions && s.items[s.waiters[w].home].id == s.waiters[w].home
    ensures var id, s' := s.waiters[w].home, HandleCancel(s, pk, w);
            OnlyLeaves(s, s', pk, s.items[id], id !in s'.items)
  {
    hide RemovePending, OnlyLeaves;
    var id := s.waiters[w].home;
    RemoveLeaves(s, pk, w);
    DetachLeaves(s, pk, w, Detach(s, pk, w).items[id].batchID);
    RemovePendingItems(Detach(s, pk, w), pk, id);
  }

  lemma HomePartition(cfg: Config, s: State, id: nat)
    requires id in s.items && ItemOk(cfg, s, {}, id)
    ensures s.items[id].part in s.partitions && s.items[id].id == id
  {
  }

  lemma RemovePendingItems(s: State, pk: string, id: nat)
    requires pk in s.partitions && id in s.items
    ensures RemovePending(s, pk, id).items == s.items - {id} && RemovePending(s, pk, id).waiters == s.waiters
  {
    hide RemoveFirst, DropItem;
    var p, it := s.partitions[pk], s.items[id];
    DropOne(SetPartition(s, pk,
      p.(pending := RemoveFirst(p.pending, id), bytes := p.bytes - it.bytes, weight := p.weight - it.weight)), pk, id);
  }

  lemma DropOne(s: State, pk: string, id: nat)
    requires id in s.items && pk in s.partitions
    ensures DropItem(s, pk, id).items == s.items - {id} && DropItem(s, pk, id).waiters == s.waiters
  {
    hide RemoveActive;
  }
}
