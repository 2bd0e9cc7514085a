/** Scheduling, completion, barriers and shutdown keep the invariant; so does every turn of the loop. */
module CoordTurns {
  import opened Seqs
  import opened Wire
  import opened StringOrder
  import opened CoordModel
  import opened CoordInvariant
  import opened CoordSteps
  import opened CoordSubmit
  import opened CoordCancel
  import opened CoordDispatch

  // ---------------------------------------------------------------- what scheduling leaves alone

  /** No admission reply, parked submission, barrier or setting changes. */
  ghost predicate Quiet(s: State, s': State) {
    && s'.blocked == s.blocked && SameBarriers(s, s') && s'.dyn == s.dyn
    && s'.closing == s.closing && s'.engineDone == s.engineDone && s'.stopped == s.stopped
    && s'.submitSeq == s.submitSeq && s'.requestSeq == s.requestSeq
    && s'.waiters.Keys == s.waiters.Keys
    && (forall w :: w in s.waiters ==>
                      && s'.waiters[w].admit == s.waiters[w].admit
                      && s'.waiters[w].part == s.waiters[w].part && s'.waiters[w].key == s.waiters[w].key)
  }

  lemma QuietTrans(s: State, t: State, u: State)
    requires Quiet(s, t) && Quiet(t, u)
    ensures Quiet(s, u)
  {
  }

  lemma FinishQuiet(s: State, pk: string, id: nat, r: Option<Delivery>)
    ensures Quiet(s, FinishItem(s, pk, id, r))
  {
    FinishFields(s, pk, id, r);
    FinishWaiters(s, pk, id, r);
    hide FinishItem;
  }

  lemma FinishWaiters(s: State, pk: string, id: nat, r: Option<Delivery>)
    ensures var ws := FinishItem(s, pk, id, r).waiters;
            ws.Keys == s.waiters.Keys
            && forall w :: w in ws ==> ws[w] == s.waiters[w].(active := ws[w].active, ch := ws[w].ch)
  {
    hide RemoveActive;
    if id in s.items && r.Some? {
      DeliverAllAt(s.waiters, s.items[id].waiters, r.value);
    }
  }

  lemma {:induction false} FinishAllQuiet(s: State, pk: string, ids: seq<nat>, rs: seq<Option<Delivery>>)
    requires |ids| == |rs|
    ensures Quiet(s, FinishAll(s, pk, ids, rs))
  {
    hide FinishItem;
    if ids != [] {
      var n := |ids| - 1;
      FinishAllQuiet(s, pk, ids[..n], rs[..n]);
      FinishQuiet(FinishAll(s, pk, ids[..n], rs[..n]), pk, ids[n], rs[n]);
    }
  }

  lemma StartQuiet(s: State, pk: string, sel: Selection)
    requires pk in s.partitions
    ensures Quiet(s, StartBatch(s, pk, sel))
  {
  }

  lemma DispatchQuiet(cfg: Config, s: State, pk: string)
    requires pk in s.partitions
    ensures Quiet(s, Dispatch(cfg, s, pk))
  {
    hide FinishAll, Select, StartBatch, RequestFor, RequestValid, Quiet;
    var p := s.partitions[pk];
    var sel := Select(cfg, MaxBatchSize(cfg, s), s.items, p.pending);
    var s1 := SetPartition(s, pk, Requeue(p, s.items, sel));
    var s2 := FinishAll(s1, pk, sel.gone, sel.results);
    CutQuiet(s, pk, Requeue(p, s.items, sel));
    FinishAllQuiet(s1, pk, sel.gone, sel.results);
    QuietTrans(s, s1, s2);
    var broken := seq(|sel.selected|, _ => Some(Broken(ContractViolation)));
    FinishAllQuiet(s2, pk, sel.selected, broken);
    QuietTrans(s, s2, FinishAll(s2, pk, sel.selected, broken));
    if pk in s2.partitions {
      StartQuiet(s2, pk, sel);
      QuietTrans(s, s2, StartBatch(s2, pk, sel));
    }
  }

  lemma CutQuiet(s: State, pk: string, p: Partition)
    requires pk in s.partitions
    ensures Quiet(s, SetPartition(s, pk, p))
  {
  }

  lemma ParkedQuiet(cfg: Config, s: State, s': State)
    requires Quiet(s, s') && ParkedOk(cfg, s.waiters, s.blocked)
    ensures ParkedOk(cfg, s'.waiters, s'.blocked)
  {
    forall i | 0 <= i < |s.blocked| ensures ParkedReq(cfg, s'.waiters, s'.blocked[i]) {
      assert ParkedReq(cfg, s.waiters, s.blocked[i]);
    }
  }

  lemma BarriersAge(s: State, s': State)
    requires BarriersOk(s) && SameBarriers(s, s') && Ages(s, s')
    ensures BarriersOk(s')
  {
    forall id | id in s'.signals ensures SignalOk(s', id) {
      assert SignalOk(s, id);
    }
  }

  /** An invariant state moves to another, lawfully and without touching replies or barriers. */
  ghost predicate Moves(cfg: Config, law: Law, s: State, s': State) {
    Core(cfg, s', {}) && Progress(law, s, s') && Quiet(s, s')
  }

  lemma MovesTrans(cfg: Config, law: Law, s: State, t: State, u: State)
    requires Moves(cfg, law, s, t) && Moves(cfg, law, t, u)
    ensures Moves(cfg, law, s, u)
  {
    hide Core, Progress, Quiet;
    ProgressTrans(law, s, t, u);
    QuietTrans(s, t, u);
  }

  lemma MovesInv(cfg: Config, law: Law, s: State, s': State)
    requires Inv(cfg, s) && Moves(cfg, law, s, s')
    ensures Inv(cfg, s')
  {
    hide Core, ParkedOk, BarriersOk, Evolves, Ages, Flies;
    ParkedQuiet(cfg, s, s');
    BarriersAge(s, s');
  }

  // ---------------------------------------------------------------- scheduling

  /** In valid states every queued item has a caller, so there is nothing to prune. */
  lemma PruneIdle(cfg: Config, s: State, pk: string)
    requires Core(cfg, s, {})
    ensures Prune(s, pk) == s
  {
    hide Core;
    if pk in s.partitions && s.partitions[pk].pending != [] {
      QueueKnown(cfg, s, pk);
      assert s.partitions[pk].pending[0] in s.partitions[pk].pending;
    }
  }

  lemma DispatchMoves(cfg: Config, law: Law, s: State, pk: string)
    requires ConfigValid(cfg) && LawOk(law) && Core(cfg, s, {}) && pk in s.partitions
    requires s.activeProvider < MaxConcurrency(cfg, s)
    ensures Moves(cfg, law, s, Dispatch(cfg, s, pk))
  {
    hide Core, ConfigValid, LawOk, Progress, Quiet, Dispatch;
    DispatchKeeps(cfg, law, s, pk);
    DispatchQuiet(cfg, s, pk);
  }

  lemma NoMove(cfg: Config, law: Law, s: State)
    requires Core(cfg, s, {})
    ensures Moves(cfg, law, s, s)
  {
    NoChange(law, s);
  }

  lemma {:induction false} LoopMoves(cfg: Config, law: Law, s: State, pk: string, force: bool, now: Time)
    requires ConfigValid(cfg) && LawOk(law) && Core(cfg, s, {})
    ensures Moves(cfg, law, s, DispatchLoop(cfg, s, pk, force, now))
    decreases PendingCount(s, pk)
  {
    hide ConfigValid, LawOk, Core, Progress, Quiet, Dispatch, ShouldDispatch;
    NoMove(cfg, law, s);
    PruneIdle(cfg, s, pk);
    if PendingCount(s, pk) != 0 && s.activeProvider < MaxConcurrency(cfg, s)
       && ShouldDispatch(cfg, s, s.partitions[pk], force, now).Some?
    {
      var t := Dispatch(cfg, s, pk);
      DispatchShrinks(cfg, s, pk);
      DispatchMoves(cfg, law, s, pk);
      LoopMoves(cfg, law, t, pk, force, now);
      MovesTrans(cfg, law, s, t, DispatchLoop(cfg, t, pk, force, now));
    }
  }

  lemma RetireMoves(cfg: Config, law: Law, s: State, pk: string)
    requires Core(cfg, s, {})
    ensures Moves(cfg, law, s, MaybeRetire(s, pk))
  {
    hide Core, Evolves, Ages, Flies;
    RetireKeeps(cfg, s, pk);
    NoChange(law, s);
    SameItems(law, s, MaybeRetire(s, pk));
  }

  lemma SameItems(law: Law, s: State, s': State)
    requires s'.waiters == s.waiters && s'.items == s.items && s'.inflight == s.inflight && s'.signals == s.signals
    requires s'.submitSeq == s.submitSeq && s'.requestSeq == s.requestSeq && s'.batchSeq == s.batchSeq
    ensures Progress(law, s, s')
  {
  }

  lemma PartitionMoves(cfg: Config, law: Law, s: State, pk: string, force: bool, now: Time)
    requires ConfigValid(cfg) && LawOk(law) && Core(cfg, s, {})
    ensures Moves(cfg, law, s, SchedulePartition(cfg, s, pk, force, now))
  {
    hide ConfigValid, LawOk, Core, Progress, Quiet, DispatchLoop, MaybeRetire;
    NoMove(cfg, law, s);
    LoopMoves(cfg, law, s, pk, force, now);
    var t := DispatchLoop(cfg, s, pk, force, now);
    RetireMoves(cfg, law, t, pk);
    MovesTrans(cfg, law, s, t, MaybeRetire(t, pk));
  }

  lemma {:induction false} AllMoves(cfg: Config, law: Law, s: State, keys: seq<string>, force: bool, now: Time)
    requires ConfigValid(cfg) && LawOk(law) && Core(cfg, s, {})
    ensures Moves(cfg, law, s, ScheduleAll(cfg, s, keys, force, now))
  {
    hide ConfigValid, LawOk, Core, Progress, Quiet, SchedulePartition;
    if keys == [] {
      NoMove(cfg, law, s);
    } else {
      var n := |keys| - 1;
      AllMoves(cfg, law, s, keys[..n], force, now);
      var t := ScheduleAll(cfg, s, keys[..n], force, now);
      PartitionMoves(cfg, law, t, keys[n], force, now);
      MovesTrans(cfg, law, s, t, SchedulePartition(cfg, t, keys[n], force, now));
    }
  }

  lemma TimerMoves(cfg: Config, law: Law, s: State, timer: Option<Time>)
    requires Core(cfg, s, {})
    ensures Moves(cfg, law, s, s.(timer := timer))
  {
    hide ItemsOk, QueuesOk, BatchesOk, WaitersOk, DedupOk, Progress;
    OnlyControl(cfg, law, s, s.(timer := timer));
  }

  lemma ScheduleMoves(cfg: Config, law: Law, s: State, force: bool, now: Time)
    requires ConfigValid(cfg) && LawOk(law) && Core(cfg, s, {})
    ensures Moves(cfg, law, s, Schedule(cfg, s, force, now))
  {
    hide ConfigValid, LawOk, Core, Progress, Quiet, ScheduleAll, EarliestDue;
    var keys := SortedKeys(s.partitions.Keys);
    var t := ScheduleAll(cfg, s, keys, force, now);
    AllMoves(cfg, law, s, keys, force, now);
    TimerMoves(cfg, law, t, Schedule(cfg, s, force, now).timer);
    MovesTrans(cfg, law, s, t, Schedule(cfg, s, force, now));
  }

  // ---------------------------------------------------------------- completion

  /** The provider's answers for a batch obey the law for each caller that will receive them. */
  ghost predicate Lawful(law: Law, s: State, batch: nat, done: Completion) {
    batch in s.inflight ==>
      var ids := s.inflight[batch].items;
      forall i, w :: 0 <= i < |ids| && ids[i] in s.items && w in s.items[ids[i]].waiters && w in s.waiters ==>
                       law(s.waiters[w].part, s.waiters[w].key, Results(done, ids)[i].value)
  }

  lemma ResultsSome(done: Completion, ids: seq<nat>)
    ensures forall i :: 0 <= i < |ids| ==> Results(done, ids)[i].Some?
  {
  }

  lemma CompleteReady(cfg: Config, law: Law, s: State, batch: nat, done: Completion)
    requires Core(cfg, s, {}) && batch in s.inflight && Lawful(law, s, batch, done)
    ensures var b := s.inflight[batch];
            var s1 := Taken(s, batch);
            && Core(cfg, s1, Elems(b.items)) && b.partition in s1.partitions
            && FinishReady(law, s1, b.partition, b.items, Results(done, b.items))
  {
    hide Core, Loose, Results;
    var b := s.inflight[batch];
    var s1 := Taken(s, batch);
    TakeBatchKeeps(cfg, s, batch);
    ResultsSome(done, b.items);
    forall i | 0 <= i < |b.items| ensures Loose(s1, b.items[i])
      && Deliverable(law, s1, b.items[i], Results(done, b.items)[i]) {
      assert b.items[i] in b.items;
      LooseHome(s1, b.items[i]);
    }
  }

  /** Completing a batch: every caller gets its item's result, parked submissions are retried. */
  lemma CompleteKeeps(cfg: Config, law: Law, s: State, batch: nat, done: Completion, at: Time)
    requires ConfigValid(cfg) && LawOk(law) && Inv(cfg, s) && Lawful(law, s, batch, done)
    ensures var s' := HandleComplete(cfg, s, batch, done, at);
            Inv(cfg, s') && Progress(law, s, s')
  {
    hide ConfigValid, LawOk, Core, ParkedOk, BarriersOk, Lawful, FinishAll, RetryBlocked, Results, FinishReady,
      Evolves, Ages, Flies, MaybeRetire, Quiet, Outside;
    if batch !in s.inflight {
      NoChange(law, s);
    } else {
      var b := s.inflight[batch];
      var s1 := Taken(s, batch);
      CompleteReady(cfg, law, s, batch, done);
      var rs := Results(done, b.items);
      FinishAllKeeps(cfg, law, s1, Elems(b.items), b.partition, b.items, rs);
      assert Elems(b.items) - Elems(b.items) == {};
      var s2 := FinishAll(s1, b.partition, b.items, rs);
      SameProgress(law, s, s1, s2);
      FinishAllQuiet(s1, b.partition, b.items, rs);
      RetireMoves(cfg, law, s2, b.partition);
      var s3 := MaybeRetire(s2, b.partition);
      ProgressTrans(law, s, s2, s3);
      QuietTrans(s1, s2, s3);
      ParkedQuiet(cfg, s1, s3);
      RetryKeeps(cfg, law, s3, at);
      var s' := RetryBlocked(cfg, s3, at);
      ProgressTrans(law, s, s3, s');
      QuietBarriers(s1, s3);
      BarriersAge(s, s');
    }
  }

  lemma QuietBarriers(s: State, s': State)
    requires Quiet(s, s')
    ensures SameBarriers(s, s')
  {
  }

  // ---------------------------------------------------------------- barriers

  lemma QueuedIsPending(cfg: Config, s: State, id: nat, upTo: nat)
    requires id in s.items && ItemOk(cfg, s, {}, id) && !s.items[id].dispatched && s.items[id].order <= upTo
    ensures AnyPending(s, upTo)
  {
    var pending := s.partitions[s.items[id].part].pending;
    var i :| 0 <= i < |pending| && pending[i] == id;
  }

  lemma DispatchedIsInflight(cfg: Config, s: State, id: nat, upTo: nat)
    requires id in s.items && ItemOk(cfg, s, {}, id) && BatchesOk(cfg, s, {}) && s.items[id].dispatched
    requires s.items[id].order <= upTo
    ensures AnyInflight(s, upTo)
  {
    hide CancelExact, BatchLimits, CountOk, CallerOf;
    assert BatchOk(cfg, s, {}, s.items[id].batchID);
  }

  /** When its condition holds, a barrier is settled. */
  lemma SatisfiedSettled(cfg: Config, s: State, b: Barrier)
    requires Core(cfg, s, {}) && BarrierSatisfied(s, b)
    ensures Settled(s.items, b.kind, b.upTo)
  {
    hide ItemOk, QueuesOk, BatchesOk, WaitersOk, DedupOk, CountersOk, AnyPending, AnyInflight;
    forall id | id in s.items && s.items[id].order <= b.upTo ensures b.kind == Flush && s.items[id].dispatched {
      if !s.items[id].dispatched {
        QueuedIsPending(cfg, s, id, b.upTo);
      } else if b.kind != Flush {
        DispatchedIsInflight(cfg, s, id, b.upTo);
      }
    }
  }

  ghost predicate Listed(bs: seq<Barrier>, id: nat) {
    exists i :: 0 <= i < |bs| && bs[i].id == id
  }

  /** Progress of the barrier pass over a prefix of the barriers. */
  ghost predicate Tried(s: State, bs: seq<Barrier>, kept: seq<Barrier>, signals: map<nat, Signal>) {
    && signals.Keys == s.signals.Keys
    && Subseq(kept, bs)
    && (forall i :: 0 <= i < |kept| ==> kept[i].id in signals && signals[kept[i].id] == s.signals[kept[i].id])
    && (forall id :: id in signals && !Listed(bs, id) ==> signals[id] == s.signals[id])
    && (forall id :: id in signals ==>
                       signals[id] == s.signals[id]
                       || (s.signals[id].sent == [] && |signals[id].sent| == 1
                         && signals[id] == s.signals[id].(sent := signals[id].sent)
                           && (signals[id].sent == [Done] ==>
                             Settled(s.items, s.signals[id].kind, s.signals[id].upTo))))
  }

  lemma TriedStep(cfg: Config, s: State, bs: seq<Barrier>, kept: seq<Barrier>, signals: map<nat, Signal>, b: Barrier,
                  r: BarrierReply)
    requires Tried(s, bs, kept, signals) && !Listed(bs, b.id)
    requires b.id in s.signals && s.signals[b.id] == Signal(b.kind, b.upTo, [])
    requires r == Done ==> Settled(s.items, b.kind, b.upTo)
    ensures Tried(s, bs + [b], kept, Signalled(signals, b.id, r))
  {
    SubseqSkip(kept, bs, b);
    var sg := Signalled(signals, b.id, r);
    forall i | 0 <= i < |kept| ensures sg[kept[i].id] == s.signals[kept[i].id] {
      assert kept[i] in kept;
      SubseqIn(kept, bs, kept[i]);
      assert Listed(bs, kept[i].id);
    }
    forall id | id in sg && !Listed(bs + [b], id) ensures sg[id] == s.signals[id] {
      ListedMore(bs, b, id);
    }
    assert signals[b.id].sent + [r] == [r];
    assert [r] == [Done] ==> [r][0] == Done;
  }

  lemma ListedMore(bs: seq<Barrier>, b: Barrier, id: nat)
    ensures Listed(bs + [b], id) <==> Listed(bs, id) || b.id == id
  {
    if Listed(bs, id) {
      var i :| 0 <= i < |bs| && bs[i].id == id;
      assert (bs + [b])[i].id == id;
    }
    if b.id == id {
      assert (bs + [b])[|bs|].id == id;
    }
    if Listed(bs + [b], id) && b.id != id {
      var i :| 0 <= i < |bs + [b]| && (bs + [b])[i].id == id;
      assert bs[i].id == id;
    }
  }

  lemma TriedKeep(s: State, bs: seq<Barrier>, kept: seq<Barrier>, signals: map<nat, Signal>, b: Barrier)
    requires Tried(s, bs, kept, signals) && !Listed(bs, b.id) && b.id in s.signals
    ensures Tried(s, bs + [b], kept + [b], signals)
  {
    SubseqTake(kept, bs, b);
    forall id | id in signals && !Listed(bs + [b], id) ensures signals[id] == s.signals[id] {
      ListedMore(bs, b, id);
    }
  }

  lemma {:induction false} TryKeeps(cfg: Config, s: State, n: nat, expired: set<nat>)
    requires Core(cfg, s, {}) && BarriersOk(s) && n <= |s.barriers|
    ensures var (kept, signals) := TryBarriers(s, s.barriers[..n], expired);
            Tried(s, s.barriers[..n], kept, signals)
  {
    hide Core, Tried, BarrierSatisfied, Settled, SignalOk;
    var bs := s.barriers[..n];
    if n == 0 {
      TriedNone(s);
    } else {
      TryKeeps(cfg, s, n - 1, expired);
      var b := s.barriers[n - 1];
      assert bs[..n - 1] == s.barriers[..n - 1] && bs == s.barriers[..n - 1] + [b];
      var (kept, signals) := TryBarriers(s, bs[..n - 1], expired);
      assert !Listed(bs[..n - 1], b.id);
      if b.id in expired {
        TriedStep(cfg, s, bs[..n - 1], kept, signals, b, TimedOut(b.kind));
      } else if BarrierSatisfied(s, b) {
        SatisfiedSettled(cfg, s, b);
        TriedStep(cfg, s, bs[..n - 1], kept, signals, b, Done);
      } else {
        TriedKeep(s, bs[..n - 1], kept, signals, b);
      }
    }
  }

  lemma TriedNone(s: State)
    ensures Tried(s, [], [], s.signals)
  {
  }

  lemma TriedBarriers(s: State, kept: seq<Barrier>, signals: map<nat, Signal>)
    requires BarriersOk(s) && Tried(s, s.barriers, kept, signals)
    ensures BarriersOk(s.(barriers := kept, signals := signals)) && SignalsGrow(s, s.(signals := signals))
  {
    var s' := s.(barriers := kept, signals := signals);
    hide Settled;
    forall i | 0 <= i < |kept| ensures signals[kept[i].id] == Signal(kept[i].kind, kept[i].upTo, []) {
      assert kept[i] in kept;
      SubseqIn(kept, s.barriers, kept[i]);
      var k :| 0 <= k < |s.barriers| && s.barriers[k] == kept[i];
    }
    BarrierDistinct(s.barriers);
    SubseqDistinctIds(kept, s.barriers);
    forall id | id in signals ensures SignalOk(s', id) {
      assert SignalOk(s, id);
    }
  }

  ghost predicate DistinctIds(bs: seq<Barrier>) {
    forall i, j :: 0 <= i < j < |bs| ==> bs[i].id != bs[j].id
  }

  lemma BarrierDistinct(bs: seq<Barrier>)
    requires DistinctIds(bs)
    ensures Distinct(bs)
  {
  }

  lemma SubseqDistinctIds(a: seq<Barrier>, b: seq<Barrier>)
    requires Subseq(a, b) && DistinctIds(b)
    ensures DistinctIds(a)
  {
    SubseqDistinct(a, b);
    forall i, j | 0 <= i < j < |a| ensures a[i].id != a[j].id {
      assert a[i] in a && a[j] in a;
      SubseqIn(a, b, a[i]);
      SubseqIn(a, b, a[j]);
      var k :| 0 <= k < |b| && b[k] == a[i];
      var l :| 0 <= l < |b| && b[l] == a[j];
    }
  }

  lemma BarrierPassKeeps(cfg: Config, law: Law, s: State, expired: set<nat>)
    requires Inv(cfg, s)
    ensures var s' := CompleteBarriers(s, expired);
            Inv(cfg, s') && Progress(law, s, s')
  {
    hide ItemsOk, QueuesOk, BatchesOk, WaitersOk, DedupOk, ParkedOk, BarriersOk, Tried, Progress, TryBarriers;
    assert s.barriers[..|s.barriers|] == s.barriers;
    TryKeeps(cfg, s, |s.barriers|, expired);
    var (kept, signals) := TryBarriers(s, s.barriers, expired);
    TriedBarriers(s, kept, signals);
    OnlyControl(cfg, law, s, s.(barriers := kept, signals := signals));
  }

  lemma {:induction false} SignalAllAt(signals: map<nat, Signal>, bs: seq<Barrier>, r: BarrierReply)
    requires DistinctIds(bs)
    ensures SignalAll(signals, bs, r).Keys == signals.Keys
    ensures forall id :: id in signals ==>
                           SignalAll(signals, bs, r)[id] ==
                           if Listed(bs, id) then signals[id].(sent := signals[id].sent + [r]) else signals[id]
  {
    if bs != [] {
      var n := |bs| - 1;
      SignalAllAt(signals, bs[..n], r);
      forall id | id in signals
        ensures SignalAll(signals, bs, r)[id] ==
          if Listed(bs, id) then signals[id].(sent := signals[id].sent + [r]) else signals[id]
      {
        assert bs[..n] + [bs[n]] == bs;
        ListedMore(bs[..n], bs[n], id);
        assert !Listed(bs[..n], bs[n].id);
      }
    }
  }

  lemma FailGrows(s: State, r: BarrierReply)
    requires BarriersOk(s)
    ensures SignalsGrow(s, FailBarriers(s, r))
  {
    hide SignalAll, SignalOk;
    SignalAllAt(s.signals, s.barriers, r);
    forall id | id in s.signals && Listed(s.barriers, id) ensures s.signals[id].sent == [] {
      var i :| 0 <= i < |s.barriers| && s.barriers[i].id == id;
    }
  }

  /** Answering all barriers at once, each for the first and last time. */
  lemma FailKeeps(cfg: Config, law: Law, s: State, r: BarrierReply)
    requires Inv(cfg, s) && (r == Done ==> s.items == map[])
    ensures var s' := FailBarriers(s, r);
            Inv(cfg, s') && Progress(law, s, s')
  {
    hide ItemsOk, QueuesOk, BatchesOk, WaitersOk, DedupOk, ParkedOk, Progress, SignalAll;
    var s' := FailBarriers(s, r);
    SignalAllAt(s.signals, s.barriers, r);
    FailGrows(s, r);
    forall id | id in s'.signals ensures SignalOk(s', id) {
      assert SignalOk(s, id);
      if Listed(s.barriers, id) {
        var i :| 0 <= i < |s.barriers| && s.barriers[i].id == id;
        assert s'.signals[id].sent == [r];
        assert [r] == [Done] ==> [r][0] == Done;
      }
    }
    OnlyControl(cfg, law, s, s');
  }

  // ---------------------------------------------------------------- shutdown

  /** A drained coordinator holds no item at all. */
  lemma DrainedEmpty(cfg: Config, s: State)
    requires Core(cfg, s, {}) && Drained(s)
    ensures s.items == map[]
  {
    hide QueueOk, BatchesOk, WaitersOk, DedupOk, HeldOk, CallerOf;
    forall id | id in s.items ensures false {
      assert ItemOk(cfg, s, {}, id);
      LiveCounted(cfg, s, id);
    }
  }

  lemma LiveCounted(cfg: Config, s: State, id: nat)
    requires id in s.items && s.items[id].part in s.partitions && QueueOk(cfg, s, s.items[id].part)
    ensures s.partitions[s.items[id].part].live >= 1
  {
    assert id in LiveIds(s.items, s.items[id].part);
  }

  /** The state after every indexed caller was told that the engine closed. */
  ghost function Closed(s: State): (s': State) {
    s.(closing := true, engineDone := true,
    waiters := map w | w in s.waiters :: if Indexed(s, w) then Deliver(s.waiters, w, Broken(EngineClosed))[w]
      else s.waiters[w],
    inflight := AllCancelled(s.inflight))
  }

  lemma ClosedItem(cfg: Config, s: State, i: nat)
    requires i in s.items && ItemOk(cfg, s, {}, i)
    ensures ItemOk(cfg, Closed(s), {}, i)
  {
    var s' := Closed(s);
    var it := s.items[i];
    forall w | w in it.waiters ensures CallerOf(cfg, s'.waiters, it, w) && !s'.waiters[w].active {
      assert CallerOf(cfg, s.waiters, it, w);
    }
    CountZero(s'.waiters, it.waiters);
  }

  lemma ClosedBatch(cfg: Config, s: State, n: nat)
    requires n in s.inflight && BatchOk(cfg, s, {}, n)
    ensures BatchOk(cfg, Closed(s), {}, n)
  {
    hide CancelExact, Indexed;
    assert BatchLimits(cfg, s.items, Closed(s).inflight[n]);
    ClosedExact(cfg, s, n);
  }

  lemma ClosedExact(cfg: Config, s: State, n: nat)
    requires n in s.inflight
    ensures CancelExact(cfg, Closed(s), Closed(s).inflight[n])
  {
  }

  lemma ClosedWaiter(cfg: Config, s: State, w: nat)
    requires w in s.waiters && WaiterOk(s, w)
    requires Indexed(s, w) ==> s.waiters[w].admit == [Admitted]
    ensures WaiterOk(Closed(s), w)
  {
  }

  lemma IndexedAdmitted(cfg: Config, s: State, w: nat)
    requires ItemsOk(cfg, s, {})
    ensures Indexed(s, w) ==> s.waiters[w].admit == [Admitted]
  {
    hide HeldOk;
    if Indexed(s, w) {
      assert ItemOk(cfg, s, {}, s.waiters[w].home);
      assert CallerOf(cfg, s.waiters, s.items[s.waiters[w].home], w);
    }
  }

  lemma ClosedFields(cfg: Config, law: Law, s: State)
    requires LawOk(law) && CountersOk(cfg, s)
    ensures var s' := Closed(s);
            && s'.partitions == s.partitions && s'.items == s.items && s'.submitSeq == s.submitSeq
               && s'.requestSeq == s.requestSeq
            && s'.inflight.Keys == s.inflight.Keys && s'.waiters.Keys == s.waiters.Keys && s'.signals == s.signals
            && CountersOk(cfg, s') && Evolves(law, s.waiters, s'.waiters) && Flies(s, s')
  {
    hide Indexed;
    assert Closed(s).inflight.Keys == s.inflight.Keys;
    assert |Closed(s).inflight| == |s.inflight|;
  }

  lemma ClosedCore(cfg: Config, law: Law, s: State)
    requires LawOk(law) && Core(cfg, s, {})
    ensures Core(cfg, Closed(s), {}) && Progress(law, s, Closed(s))
  {
    hide ItemOk, QueueOk, BatchOk, WaiterOk, DedupOk, Indexed, CountersOk, Closed, Evolves;
    var s' := Closed(s);
    ClosedFields(cfg, law, s);
    forall i | i in s'.items ensures ItemOk(cfg, s', {}, i) {
      ClosedItem(cfg, s, i);
    }
    forall q | q in s'.partitions ensures QueueOk(cfg, s', q) {
      SameQueue(cfg, s, s', q);
    }
    forall n | n in s'.inflight ensures BatchOk(cfg, s', {}, n) {
      ClosedBatch(cfg, s, n);
    }
    forall w | w in s'.waiters ensures WaiterOk(s', w) {
      IndexedAdmitted(cfg, s, w);
      ClosedWaiter(cfg, s, w);
    }
  }

  lemma ClosedParked(cfg: Config, s: State)
    requires Inv(cfg, s)
    ensures ParkedOk(cfg, Closed(s).waiters, s.blocked)
  {
    hide ItemsOk, QueuesOk, BatchesOk, WaitersOk, DedupOk, CountersOk, BarriersOk, Indexed;
    forall i | 0 <= i < |s.blocked| ensures ParkedReq(cfg, Closed(s).waiters, s.blocked[i]) {
      assert ParkedReq(cfg, s.waiters, s.blocked[i]);
      IndexedAdmitted(cfg, s, s.blocked[i].waiter);
    }
  }

  lemma EngineCancelKeeps(cfg: Config, law: Law, s: State)
    requires LawOk(law) && Inv(cfg, s)
    ensures var s' := HandleEngineCancel(s);
            Inv(cfg, s') && Progress(law, s, s')
  {
    hide Core, ParkedOk, BarriersOk, Evolves, Ages, Flies;
    ClosedCore(cfg, law, s);
    ClosedParked(cfg, s);
    BarriersAge(s, Closed(s));
    FailKeeps(cfg, law, Closed(s), ShutDown);
    ProgressTrans(law, s, Closed(s), HandleEngineCancel(s));
  }

  // ---------------------------------------------------------------- one turn

  /** What the environment promises of an event: fresh ids, the caller's own hash, lawful answers. */
  ghost predicate Enabled(cfg: Config, law: Law, s: State, e: Event) {
    && !s.stopped
    && (e.Submit? ==> e.req.waiter !in s.waiters && e.req.hash == cfg.hash(e.req.key))
    && (e.Complete? ==> Lawful(law, s, e.batch, e.done))
    && (e.Control? ==> e.id !in s.signals)
  }

  lemma ArriveKeeps(cfg: Config, law: Law, s: State, req: SubmitReq, deadline: Option<Time>)
    requires Inv(cfg, s) && req.waiter !in s.waiters && req.hash == cfg.hash(req.key)
    ensures var s' := Arrive(s, req, deadline);
            Core(cfg, s', {}) && Progress(law, s, s') && ParkedOk(cfg, s'.waiters, s'.blocked + [req] + [])
              && SameBarriers(s, s')
  {
    hide ItemOk, QueueOk, BatchOk, DedupOk, BarriersOk, ParkedReq, WaiterOk;
    var s' := Arrive(s, req, deadline);
    forall i | i in s'.items ensures ItemOk(cfg, s', {}, i) {
      UnadmittedNotACaller(cfg, s, req.waiter, i);
      ItemKept(cfg, s, s', req.waiter, i);
    }
    forall q | q in s'.partitions ensures QueueOk(cfg, s', q) {
      SameQueue(cfg, s, s', q);
    }
    forall n | n in s'.inflight ensures BatchOk(cfg, s', {}, n) {
      SameBatch(cfg, s, s', {}, {}, n);
    }
    forall w | w in s'.waiters ensures WaiterOk(s', w) {
      ArrivedWaiter(s, req, deadline, w);
    }
    assert s'.blocked + [req] + [] == s'.blocked + [req];
    forall i | 0 <= i < |s.blocked| ensures ParkedReq(cfg, s'.waiters, s.blocked[i])
      && s.blocked[i].waiter != req.waiter {
      StillParked(cfg, s, req, deadline, s.blocked[i]);
    }
    NowParked(cfg, s, req, deadline);
  }

  lemma ArrivedWaiter(s: State, req: SubmitReq, deadline: Option<Time>, w: nat)
    requires req.waiter !in s.waiters && w in Arrive(s, req, deadline).waiters && (w in s.waiters ==> WaiterOk(s, w))
    ensures WaiterOk(Arrive(s, req, deadline), w)
  {
  }

  lemma StillParked(cfg: Config, s: State, req: SubmitReq, deadline: Option<Time>, r: SubmitReq)
    requires req.waiter !in s.waiters && ParkedReq(cfg, s.waiters, r)
    ensures ParkedReq(cfg, Arrive(s, req, deadline).waiters, r) && r.waiter != req.waiter
  {
  }

  lemma NowParked(cfg: Config, s: State, req: SubmitReq, deadline: Option<Time>)
    requires req.hash == cfg.hash(req.key)
    ensures ParkedReq(cfg, Arrive(s, req, deadline).waiters, req)
  {
  }

  lemma SubmitTurn(cfg: Config, law: Law, s: State, req: SubmitReq, deadline: Option<Time>, at: Time)
    requires ConfigValid(cfg) && Inv(cfg, s) && req.waiter !in s.waiters && req.hash == cfg.hash(req.key)
    ensures var s' := HandleSubmit(cfg, Arrive(s, req, deadline), req, at);
            Inv(cfg, s') && Progress(law, s, s')
  {
    hide ConfigValid, Core, ParkedOk, BarriersOk, Evolves, Ages, Flies, HandleSubmit;
    var s1 := Arrive(s, req, deadline);
    ArriveKeeps(cfg, law, s, req, deadline);
    SubmitKeeps(cfg, law, s1, req, at, []);
    var s' := HandleSubmit(cfg, s1, req, at);
    assert s'.blocked + [] == s'.blocked;
    ProgressTrans(law, s, s1, s');
    BarriersAge(s, s');
  }

  lemma ControlTurn(cfg: Config, law: Law, s: State, kind: ControlKind, id: nat, at: Time)
    requires ConfigValid(cfg) && LawOk(law) && Inv(cfg, s) && id !in s.signals
    ensures var s' := HandleControl(cfg, s, kind, id, at);
            Inv(cfg, s') && Progress(law, s, s')
  {
    hide ConfigValid, LawOk, ItemsOk, QueuesOk, BatchesOk, WaitersOk, DedupOk, ParkedOk, BarriersOk, Progress,
      Schedule, Quiet;
    var s0 := if kind == Close then s.(closing := true) else s;
    OnlyControl(cfg, law, s, s0);
    SameSignals(s, s0);
    ScheduleMoves(cfg, law, s0, true, at);
    var s1 := Schedule(cfg, s0, true, at);
    MovesInv(cfg, law, s0, s1);
    ProgressTrans(law, s, s0, s1);
    var s' := HandleControl(cfg, s, kind, id, at);
    QuietBarriers(s0, s1);
    OnlyControl(cfg, law, s1, s');
    ProgressTrans(law, s, s1, s');
    AddBarrier(s1, kind, id);
  }

  lemma SameSignals(s: State, s': State)
    requires BarriersOk(s) && SameBarriers(s, s') && s'.items == s.items && s'.submitSeq == s.submitSeq
    requires s'.requestSeq == s.requestSeq
    ensures BarriersOk(s')
  {
    BarriersAge(s, s');
  }

  lemma AddBarrier(s: State, kind: ControlKind, id: nat)
    requires BarriersOk(s) && id !in s.signals
    ensures BarriersOk(s.(barriers := s.barriers + [Barrier(id, kind, s.submitSeq)],
      signals := s.signals[id := Signal(kind, s.submitSeq, [])]))
  {
    var s' := s.(barriers := s.barriers + [Barrier(id, kind, s.submitSeq)],
      signals := s.signals[id := Signal(kind, s.submitSeq, [])]);
    hide Settled;
    forall j | j in s'.signals ensures SignalOk(s', j) {
      assert j in s.signals ==> SignalOk(s, j);
    }
  }

  lemma CancelTurn(cfg: Config, law: Law, s: State, pk: string, w: nat)
    requires Inv(cfg, s)
    ensures var s' := HandleCancel(s, pk, w);
            Inv(cfg, s') && Progress(law, s, s')
  {
    hide Core, BarriersOk, Evolves, Ages, Flies, HandleCancel;
    CancelKeeps(cfg, law, s, pk, w);
    var s' := HandleCancel(s, pk, w);
    BarriersAge(s, s');
    CancelParked(cfg, s, pk, w);
  }

  lemma CancelParked(cfg: Config, s: State, pk: string, w: nat)
    requires Inv(cfg, s)
    ensures ParkedOk(cfg, HandleCancel(s, pk, w).waiters, s.blocked)
  {
    CancelWaiters(s, pk, w);
    hide HandleCancel, Core, BarriersOk;
    forall i | 0 <= i < |s.blocked| ensures ParkedReq(cfg, HandleCancel(s, pk, w).waiters, s.blocked[i]) {
      assert ParkedReq(cfg, s.waiters, s.blocked[i]);
    }
  }

  lemma CancelWaiters(s: State, pk: string, w: nat)
    ensures var ws := HandleCancel(s, pk, w).waiters;
            ws.Keys == s.waiters.Keys && forall v :: v in ws ==> ws[v] == s.waiters[v].(active := ws[v].active)
  {
    hide RemovePending, Detach, Attached, SameBarriers;
    if Attached(s, pk, w) && pk in s.partitions {
      DetachFields(s, pk, w);
      AttachedKnown(s, pk, w);
      RemovePendingControl(Detach(s, pk, w), pk, s.waiters[w].home);
    }
  }

  lemma AttachedKnown(s: State, pk: string, w: nat)
    requires Attached(s, pk, w)
    ensures w in s.waiters && s.waiters[w].home in s.items
  {
  }

  lemma UnblockTurn(cfg: Config, law: Law, s: State, w: nat)
    requires Inv(cfg, s)
    ensures var s' := s.(blocked := Unpark(s.blocked, w));
            Inv(cfg, s') && Progress(law, s, s')
  {
    hide ItemsOk, QueuesOk, BatchesOk, WaitersOk, DedupOk, ParkedOk, BarriersOk, Progress;
    UnparkKeeps(cfg, s.waiters, s.blocked, w);
    var s' := s.(blocked := Unpark(s.blocked, w));
    OnlyControl(cfg, law, s, s');
    SameSignals(s, s');
  }

  lemma TimerTurn(cfg: Config, law: Law, s: State, at: Time)
    requires ConfigValid(cfg) && LawOk(law) && Inv(cfg, s)
    ensures var s' := Schedule(cfg, s.(timer := None), false, at);
            Inv(cfg, s') && Progress(law, s, s')
  {
    hide ConfigValid, LawOk, Core, ParkedOk, BarriersOk, Progress, Schedule, Quiet;
    TimerMoves(cfg, law, s, None);
    var s1 := s.(timer := None);
    ScheduleMoves(cfg, law, s1, false, at);
    MovesTrans(cfg, law, s, s1, Schedule(cfg, s1, false, at));
    MovesInv(cfg, law, s, Schedule(cfg, s1, false, at));
  }

  lemma HandleKeeps(cfg: Config, law: Law, s: State, e: Event)
    requires ConfigValid(cfg) && LawOk(law) && Inv(cfg, s) && Enabled(cfg, law, s, e)
    ensures Inv(cfg, Handle(cfg, s, e)) && Progress(law, s, Handle(cfg, s, e))
  {
    hide ConfigValid, LawOk, Inv, Progress, HandleSubmit, HandleCancel, HandleComplete, HandleControl,
      HandleEngineCancel, Schedule, Unpark, Lawful;
    match e
    case Submit(req, deadline, at) => SubmitTurn(cfg, law, s, req, deadline, at);
    case Cancel(part, w) => CancelTurn(cfg, law, s, part, w);
    case Unblock(w) => UnblockTurn(cfg, law, s, w);
    case Complete(batch, done, at) => CompleteKeeps(cfg, law, s, batch, done, at);
    case Control(kind, id, at) => ControlTurn(cfg, law, s, kind, id, at);
    case TimerFired(at) => TimerTurn(cfg, law, s, at);
    case EngineCancel => EngineCancelKeeps(cfg, law, s);
  }

  lemma StopKeeps(cfg: Config, law: Law, s: State)
    requires Inv(cfg, s)
    ensures Inv(cfg, s.(stopped := true)) && Progress(law, s, s.(stopped := true))
  {
    hide ItemsOk, QueuesOk, BatchesOk, WaitersOk, DedupOk, ParkedOk, BarriersOk, Progress;
    OnlyControl(cfg, law, s, s.(stopped := true));
    SameSignals(s, s.(stopped := true));
  }

  /** The part of a turn after the handler moves callers forward too. */
  lemma AfterHandle(cfg: Config, law: Law, s1: State, e: Event, now: Time, expired: set<nat>, s': State)
    requires ConfigValid(cfg) && LawOk(law) && Inv(cfg, s1)
    requires s' == if e.EngineCancel? && Drained(s1) then s1.(stopped := true)
                   else var s2 := CompleteBarriers(Schedule(cfg, s1, false, now), expired);
                        if s2.closing && Drained(s2) then FailBarriers(s2, Done).(stopped := true) else s2
    ensures Inv(cfg, s') && Progress(law, s1, s')
  {
    hide ConfigValid, LawOk, Core, ParkedOk, BarriersOk, Progress, Schedule, CompleteBarriers, FailBarriers, Drained,
      Quiet;
    if e.EngineCancel? && Drained(s1) {
      StopKeeps(cfg, law, s1);
    } else {
      ScheduleMoves(cfg, law, s1, false, now);
      var t := Schedule(cfg, s1, false, now);
      MovesInv(cfg, law, s1, t);
      var s2 := CompleteBarriers(t, expired);
      BarrierPassKeeps(cfg, law, t, expired);
      ProgressTrans(law, s1, t, s2);
      if s2.closing && Drained(s2) {
        DrainedEmpty(cfg, s2);
        FailKeeps(cfg, law, s2, Done);
        var s3 := FailBarriers(s2, Done);
        ProgressTrans(law, s1, s2, s3);
        StopKeeps(cfg, law, s3);
        ProgressTrans(law, s1, s3, s3.(stopped := true));
      }
    }
  }

  /** Every turn of the event loop keeps the invariant and moves every caller forward. */
  lemma TurnKeeps(cfg: Config, law: Law, s: State, e: Event, now: Time, expired: set<nat>)
    requires ConfigValid(cfg) && LawOk(law) && Inv(cfg, s) && Enabled(cfg, law, s, e)
    ensures var s' := Turn(cfg, s, e, now, expired);
            Inv(cfg, s') && Progress(law, s, s')
  {
    hide ConfigValid, LawOk, Inv, Progress, Handle, Schedule, CompleteBarriers, FailBarriers, Drained, Enabled;
    var s1 := Handle(cfg, s, e);
    HandleKeeps(cfg, law, s, e);
    AfterHandle(cfg, law, s1, e, now, expired, Turn(cfg, s, e, now, expired));
    ProgressTrans(law, s, s1, Turn(cfg, s, e, now, expired));
  }
}
