/** A caller's cancellation keeps the invariant, and cancels a batch exactly with its last wanted item. */
module CoordCancel {
  import opened Seqs
  import opened CoordModel
  import opened CoordInvariant
  import opened CoordSteps
  import opened CoordSubmit

  lemma DetachFields(s: State, pk: string, w: nat)
    requires Attached(s, pk, w) && pk in s.partitions
    ensures var s' := Detach(s, pk, w);
            var id := s.waiters[w].home;
            && s' == s.(partitions := s'.partitions, items := s'.items, waiters := s'.waiters)
            && s'.partitions == s.partitions[pk := s.partitions[pk].(waiters := s.partitions[pk].waiters - 1)]
            && s'.items == s.items[id := s.items[id].(activeWaiters := s.items[id].activeWaiters - 1)]
            && s'.waiters == s.waiters[w := s.waiters[w].(active := false)]
  {
  }

  lemma DetachedItem(cfg: Config, s: State, pk: string, w: nat)
    requires Attached(s, pk, w) && pk in s.partitions && ItemOk(cfg, s, {}, s.waiters[w].home)
    ensures var s' := Detach(s, pk, w);
            var id := s.waiters[w].home;
            && ItemOk(cfg, s', {id}, id)
            && CountOk(s', s'.items[id])
            && (!cfg.dedup ==> s'.items[id].activeWaiters == 0)
            && (s'.items[id].activeWaiters == 0 ==> forall v :: v in s'.items[id].waiters && v in s'.waiters ==>
              !s'.waiters[v].active)
  {
    var s' := Detach(s, pk, w);
    var id := s.waiters[w].home;
    var it, it' := s.items[id], s'.items[id];
    DetachFields(s, pk, w);
    hide Detach;
    forall v | v in it.waiters ensures CallerOf(cfg, s'.waiters, it', v) {
      assert CallerOf(cfg, s.waiters, it, v);
    }
    assert forall v :: v in it.waiters ==> CallerOf(cfg, s.waiters, it, v);
    CountZero(s.waiters, it.waiters);
    CountSwitchOff(s.waiters, s'.waiters, it.waiters, w);
    CountZero(s'.waiters, it.waiters);
  }

  /** An item whose callers are untouched stays as it was. */
  lemma BystanderItem(cfg: Config, s: State, pk: string, w: nat, i: nat)
    requires Attached(s, pk, w) && pk in s.partitions && i in s.items && i != s.waiters[w].home
    requires ItemOk(cfg, s, {}, i) && ItemOk(cfg, s, {}, s.waiters[w].home)
    ensures ItemOk(cfg, Detach(s, pk, w), {s.waiters[w].home}, i)
  {
    CallersDisjoint(cfg, s, {}, s.waiters[w].home, i);
    DetachFields(s, pk, w);
    hide Detach;
    ItemKept(cfg, s, Detach(s, pk, w), w, i);
  }

  lemma DetachWaiter(s: State, pk: string, w: nat, v: nat)
    requires Attached(s, pk, w) && pk in s.partitions && v in s.waiters && WaiterOk(s, v)
    requires s.waiters[w].admit == [Admitted]
    ensures v in Detach(s, pk, w).waiters && WaiterOk(Detach(s, pk, w), v)
  {
    DetachFields(s, pk, w);
  }

  lemma AttachedAdmitted(cfg: Config, s: State, pk: string, w: nat)
    requires Attached(s, pk, w) && ItemOk(cfg, s, {}, s.waiters[w].home)
    ensures s.waiters[w].admit == [Admitted]
  {
    assert CallerOf(cfg, s.waiters, s.items[s.waiters[w].home], w);
  }

  lemma DetachKeeps(cfg: Config, law: Law, s: State, pk: string, w: nat)
    requires Core(cfg, s, {}) && Attached(s, pk, w) && pk in s.partitions
    ensures var s' := Detach(s, pk, w);
            Core(cfg, s', {s.waiters[w].home}) && Progress(law, s, s')
  {
    hide ItemOk, QueueOk, BatchOk, WaiterOk, Detach;
    var s' := Detach(s, pk, w);
    var id := s.waiters[w].home;
    DetachFields(s, pk, w);
    AttachedAdmitted(cfg, s, pk, w);
    forall i | i in s'.items ensures ItemOk(cfg, s', {id}, i) {
      if i == id {
        DetachedItem(cfg, s, pk, w);
      } else {
        BystanderItem(cfg, s, pk, w, i);
      }
    }
    forall q | q in s'.partitions ensures QueueOk(cfg, s', q) {
      SameQueue(cfg, s, s', q);
    }
    forall n | n in s'.inflight ensures BatchOk(cfg, s', {id}, n) {
      SameBatch(cfg, s, s', {}, {id}, n);
    }
    forall v | v in s'.waiters ensures WaiterOk(s', v) {
      DetachWaiter(s, pk, w, v);
    }
  }

  // ---------------------------------------------------------------- putting an item back under the invariant

  lemma RestoreBatch(cfg: Config, s: State, id: nat, n: nat)
    requires n in s.inflight && BatchOk(cfg, s, {id}, n)
    requires id in s.items
    requires (s.items[id].dispatched && s.items[id].batchID == n ==> CancelExact(cfg, s, s.inflight[n]))
    ensures BatchOk(cfg, s, {}, n)
  {
    if id !in s.inflight[n].items {
      assert forall j :: j in s.inflight[n].items ==> j !in {id};
    }
  }

  lemma Restore(cfg: Config, s: State, id: nat)
    requires Core(cfg, s, {id}) && id in s.items && s.items[id].part in s.partitions && HeldOk(s, s.items[id])
    requires s.items[id].dispatched && s.items[id].batchID in s.inflight ==>
      CancelExact(cfg, s, s.inflight[s.items[id].batchID])
    ensures Core(cfg, s, {})
  {
    hide QueueOk, BatchOk, WaiterOk, DedupOk, HeldOk, CancelExact;
    forall i | i in s.items ensures ItemOk(cfg, s, {}, i) {
      assert ItemOk(cfg, s, {id}, i);
    }
    forall n | n in s.inflight ensures BatchOk(cfg, s, {}, n) {
      RestoreBatch(cfg, s, id, n);
    }
  }

  // ---------------------------------------------------------------- the three outcomes

  lemma HeldDetails(cfg: Config, s: State, X: set<nat>, id: nat)
    requires id in s.items && ItemOk(cfg, s, X, id) && id !in X
    ensures s.items[id].id == id && s.items[id].part in s.partitions && HeldOk(s, s.items[id])
  {
  }

  /** Other callers still want the item. */
  lemma StillWanted(cfg: Config, law: Law, s: State, pk: string, w: nat)
    requires Core(cfg, s, {}) && Attached(s, pk, w) && pk in s.partitions
    requires Detach(s, pk, w).items[s.waiters[w].home].activeWaiters != 0
    ensures Core(cfg, Detach(s, pk, w), {}) && Progress(law, s, Detach(s, pk, w))
  {
    hide ItemOk, QueuesOk, BatchesOk, WaitersOk, DedupOk, CountersOk, Progress, Detach, CountOk;
    var s' := Detach(s, pk, w);
    var id := s.waiters[w].home;
    HeldDetails(cfg, s, {}, id);
    DetachKeeps(cfg, law, s, pk, w);
    DetachedItem(cfg, s, pk, w);
    DetachFields(s, pk, w);
    PositiveCount(s', s'.items[id]);
    Restore(cfg, s', id);
  }

  lemma PositiveCount(s: State, it: Item)
    requires CountOk(s, it)
    ensures it.activeWaiters >= 0
  {
  }

  /** A queue without one of its items, its totals lowered by that item. */
  function Without(p: Partition, it: Item): (r: Partition) {
    p.(pending := RemoveFirst(p.pending, it.id), bytes := p.bytes - it.bytes, weight := p.weight - it.weight)
  }

  lemma WithoutKeeps(cfg: Config, s: State, pk: string, id: nat)
    requires pk in s.partitions && QueueOk(cfg, s, pk) && id in s.partitions[pk].pending && s.items[id].id == id
    ensures var p := Without(s.partitions[pk], s.items[id]);
            && Distinct(p.pending) && WithinLimits(cfg, s.items, p)
            && forall i :: i in p.pending <==> i in s.partitions[pk].pending && i != id
  {
    hide IndexOk;
    var p := s.partitions[pk];
    RemoveFirstDistinct(p.pending, id);
    TotalRemove(s.items, Weight, p.pending, id);
    TotalRemove(s.items, Bytes, p.pending, id);
    SubseqShorter(RemoveFirst(p.pending, id), p.pending);
  }

  /** The item was still queued: it leaves the queue and the index. */
  lemma NoLongerQueued(cfg: Config, law: Law, s: State, pk: string, id: nat)
    requires Core(cfg, s, {id}) && id in s.items && s.items[id].part == pk && pk in s.partitions && s.items[id].id == id
    requires !s.items[id].dispatched && id in s.partitions[pk].pending
    requires forall v :: v in s.items[id].waiters && v in s.waiters ==> !s.waiters[v].active
    ensures var s' := RemovePending(s, pk, id);
            Core(cfg, s', {}) && Progress(law, s, s')
  {
    hide ItemsOk, QueueOk, BatchesOk, WaitersOk, DedupOk, CountersOk, WithinLimits, Progress, RemoveFirst, DropItem,
      MaybeRetire;
    var p := s.partitions[pk];
    var p' := Without(p, s.items[id]);
    WithoutKeeps(cfg, s, pk, id);
    hide QueuesOk;
    RequeueKeeps(cfg, s, {id}, pk, p');
    var s1 := SetPartition(s, pk, p');
    NotInBatch(cfg, s, id);
    DropKeeps(cfg, law, s1, {id}, id);
    var s2 := DropItem(s1, pk, id);
    assert {id} - {id} == {};
    RetireKeeps(cfg, s2, pk);
    SameProgress(law, s, s1, s2);
    RetireProgress(law, s, s2, pk);
  }

  lemma RetireProgress(law: Law, s: State, t: State, pk: string)
    requires Progress(law, s, t)
    ensures Progress(law, s, MaybeRetire(t, pk))
  {
  }

  lemma NotInBatch(cfg: Config, s: State, id: nat)
    requires BatchesOk(cfg, s, {id}) && id in s.items && !s.items[id].dispatched
    ensures s.items[id].batchID in s.inflight ==> id !in s.inflight[s.items[id].batchID].items
  {
    hide CancelExact, BatchLimits;
    if s.items[id].batchID in s.inflight {
      assert BatchOk(cfg, s, {id}, s.items[id].batchID);
    }
  }

  /** The batch's count falls with the item, and reaches zero with the last one. */
  lemma AbandonedBatch(cfg: Config, s: State, s1: State, n: nat, id: nat)
    requires n in s.inflight && BatchOk(cfg, s, {}, n) && s1.inflight == s.inflight && s1.engineDone == s.engineDone
    requires id in s.inflight[n].items
    requires forall i :: i in s.items ==> i in s1.items && s.items[i].activeWaiters >= 0
    requires forall i :: i in s.items && i != id ==> s1.items[i] == s.items[i]
    requires s1.items[id].activeWaiters == s.items[id].activeWaiters - 1 == 0
    ensures CancelExact(cfg, Abandon(s1, n), Abandon(s1, n).inflight[n])
  {
    var b := s.inflight[n];
    if !cfg.dedup && !s.engineDone {
      SumActiveLess(s.items, s1.items, b.items, id);
      SumActivePositive(s.items, b.items);
    }
  }

  lemma AbandonBatch(cfg: Config, s: State, id: nat, n: nat, m: nat)
    requires n in s.inflight && m in s.inflight && BatchOk(cfg, s, {id}, m)
    requires id in s.inflight[n].items
    ensures BatchOk(cfg, Abandon(s, n), {id}, m)
  {
    var s' := Abandon(s, n);
    if m != n {
      SameBatch(cfg, s, s', {id}, {id}, m);
    }
  }

  lemma AbandonItem(cfg: Config, s: State, X: set<nat>, n: nat, i: nat)
    requires n in s.inflight && i in s.items && ItemOk(cfg, s, X, i)
    ensures ItemOk(cfg, Abandon(s, n), X, i)
  {
  }

  lemma AbandonKeeps(cfg: Config, law: Law, s: State, id: nat, n: nat)
    requires Core(cfg, s, {id}) && n in s.inflight && id in s.inflight[n].items
    ensures Core(cfg, Abandon(s, n), {id}) && Progress(law, s, Abandon(s, n))
  {
    hide ItemOk, QueueOk, BatchOk, WaiterOk, DedupOk;
    var s' := Abandon(s, n);
    assert s'.inflight.Keys == s.inflight.Keys;
    assert |s'.inflight| == |s.inflight|;
    forall i | i in s'.items ensures ItemOk(cfg, s', {id}, i) {
      AbandonItem(cfg, s, {id}, n, i);
    }
    forall q | q in s'.partitions ensures QueueOk(cfg, s', q) {
      SameQueue(cfg, s, s', q);
    }
    forall m | m in s'.inflight ensures BatchOk(cfg, s', {id}, m) {
      AbandonBatch(cfg, s, id, n, m);
    }
    forall w | w in s'.waiters ensures WaiterOk(s', w) {
      SameWaiter(s, s', w);
    }
  }

  lemma NonNegative(cfg: Config, s: State)
    requires ItemsOk(cfg, s, {})
    ensures forall i :: i in s.items ==> s.items[i].activeWaiters >= 0
  {
    forall i | i in s.items ensures s.items[i].activeWaiters >= 0 {
      assert ItemOk(cfg, s, {}, i);
    }
  }

  /** The item was dispatched: it stays in its batch, which may now be cancelled. */
  lemma LeftInFlight(cfg: Config, law: Law, s: State, pk: string, w: nat)
    requires Core(cfg, s, {}) && Attached(s, pk, w) && pk in s.partitions
    requires var it := Detach(s, pk, w).items[s.waiters[w].home]; it.activeWaiters == 0 && it.dispatched
    ensures var s' := Abandon(Detach(s, pk, w), Detach(s, pk, w).items[s.waiters[w].home].batchID);
            Core(cfg, s', {}) && Progress(law, s, s')
  {
    hide ItemOk, QueuesOk, BatchOk, WaitersOk, DedupOk, CountersOk, Progress, Detach, CountOk, CancelExact;
    var s1 := Detach(s, pk, w);
    var id := s.waiters[w].home;
    var n := s.items[id].batchID;
    HeldDetails(cfg, s, {}, id);
    DetachKeeps(cfg, law, s, pk, w);
    DetachedItem(cfg, s, pk, w);
    DetachFields(s, pk, w);
    AbandonKeeps(cfg, law, s1, id, n);
    NonNegative(cfg, s);
    AbandonedBatch(cfg, s, s1, n, id);
    var s' := Abandon(s1, n);
    SameCount(s1, s', s1.items[id]);
    Restore(cfg, s', id);
    ProgressTrans(law, s, s1, s');
  }

  lemma SameCount(s: State, s': State, it: Item)
    requires CountOk(s, it) && s'.waiters == s.waiters && s'.engineDone == s.engineDone
    ensures CountOk(s', it)
  {
  }

  lemma CancelKeeps(cfg: Config, law: Law, s: State, pk: string, w: nat)
    requires Core(cfg, s, {})
    ensures var s' := HandleCancel(s, pk, w);
            Core(cfg, s', {}) && Progress(law, s, s') && s'.blocked == s.blocked && SameBarriers(s, s')
  {
    hide ItemOk, QueuesOk, BatchesOk, WaitersOk, DedupOk, CountersOk, Progress, Detach, RemovePending;
    if !Attached(s, pk, w) || pk !in s.partitions {
      NoChange(law, s);
    } else {
      var id := s.waiters[w].home;
      var s1 := Detach(s, pk, w);
      DetachFields(s, pk, w);
      if s1.items[id].activeWaiters != 0 {
        StillWanted(cfg, law, s, pk, w);
      } else if !s1.items[id].dispatched {
        HeldDetails(cfg, s, {}, id);
        DetachKeeps(cfg, law, s, pk, w);
        DetachedItem(cfg, s, pk, w);
        assert s1.items[id].id == id;
        NoLongerQueued(cfg, law, s1, pk, id);
        RemovePendingControl(s1, pk, id);
        ProgressTrans(law, s, s1, RemovePending(s1, pk, id));
      } else {
        LeftInFlight(cfg, law, s, pk, w);
      }
    }
  }

  lemma RemovePendingControl(s: State, pk: string, id: nat)
    ensures var s' := RemovePending(s, pk, id);
            s'.blocked == s.blocked && SameBarriers(s, s') && s'.waiters == s.waiters
  {
    hide DropItem, RemoveFirst;
    if pk in s.partitions && id in s.items {
      var p, it := s.partitions[pk], s.items[id];
      DropFields(SetPartition(s, pk,
        p.(pending := RemoveFirst(p.pending, id), bytes := p.bytes - it.bytes, weight := p.weight - it.weight)), pk,
          id);
    }
  }

  // ---------------------------------------------------------------- withdrawing a parked submission

  lemma {:induction false} UnparkAt(blocked: seq<SubmitReq>, w: nat, i: nat)
    requires i <= |blocked| && forall k :: 0 <= k < i ==> blocked[k].waiter != w
    requires i < |blocked| ==> blocked[i].waiter == w
    ensures Unpark(blocked, w) == if i < |blocked| then blocked[..i] + blocked[i + 1..] else blocked
  {
    if i > 0 {
      UnparkAt(blocked[1..], w, i - 1);
    }
  }

  /** The place of the caller's parked submission, the end if it has none. */
  lemma {:induction false} ParkedAt(blocked: seq<SubmitReq>, w: nat) returns (i: nat)
    ensures i <= |blocked| && (forall k :: 0 <= k < i ==> blocked[k].waiter != w)
    ensures i < |blocked| ==> blocked[i].waiter == w
  {
    i := 0;
    while i < |blocked| && blocked[i].waiter != w
      invariant i <= |blocked| && forall k :: 0 <= k < i ==> blocked[k].waiter != w
    {
      i := i + 1;
    }
  }

  lemma CutParked(cfg: Config, ws: map<nat, Waiter>, blocked: seq<SubmitReq>, i: nat)
    requires ParkedOk(cfg, ws, blocked) && i < |blocked|
    ensures ParkedOk(cfg, ws, blocked[..i] + blocked[i + 1..])
  {
    hide ParkedReq;
    var r := blocked[..i] + blocked[i + 1..];
    forall k | 0 <= k < |r| ensures ParkedReq(cfg, ws, r[k]) {
      assert r[k] == blocked[if k < i then k else k + 1];
    }
    forall j, k | 0 <= j < k < |r| ensures r[j].waiter != r[k].waiter {
      assert r[j] == blocked[if j < i then j else j + 1] && r[k] == blocked[if k < i then k else k + 1];
    }
  }

  lemma CutMembers(blocked: seq<SubmitReq>, i: nat)
    requires i < |blocked| && forall j, k :: 0 <= j < k < |blocked| ==> blocked[j].waiter != blocked[k].waiter
    ensures forall r :: r in blocked[..i] + blocked[i + 1..] <==> r in blocked && r.waiter != blocked[i].waiter
  {
    var rest := blocked[..i] + blocked[i + 1..];
    forall r | r in blocked && r.waiter != blocked[i].waiter ensures r in rest {
      var k :| 0 <= k < |blocked| && blocked[k] == r;
      assert r == rest[if k < i then k else k - 1];
    }
    forall k | 0 <= k < |rest| ensures rest[k] in blocked && rest[k].waiter != blocked[i].waiter {
      assert rest[k] == blocked[if k < i then k else k + 1];
    }
  }

  lemma ParkedApart(cfg: Config, ws: map<nat, Waiter>, blocked: seq<SubmitReq>)
    requires ParkedOk(cfg, ws, blocked)
    ensures forall j, k :: 0 <= j < k < |blocked| ==> blocked[j].waiter != blocked[k].waiter
  {
    hide ParkedReq;
  }

  /** A withdrawal removes the caller's parked submission and nothing else. */
  lemma UnparkKeeps(cfg: Config, ws: map<nat, Waiter>, blocked: seq<SubmitReq>, w: nat)
    requires ParkedOk(cfg, ws, blocked)
    ensures ParkedOk(cfg, ws, Unpark(blocked, w))
    ensures forall r :: r in Unpark(blocked, w) <==> r in blocked && r.waiter != w
  {
    hide Unpark, ParkedOk;
    var i := ParkedAt(blocked, w);
    UnparkAt(blocked, w, i);
    if i < |blocked| {
      CutParked(cfg, ws, blocked, i);
      ParkedApart(cfg, ws, blocked);
      CutMembers(blocked, i);
    }
  }
}
