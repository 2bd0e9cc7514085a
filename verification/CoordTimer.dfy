/**
 No wake-up is missed: after a scheduling pass that leaves a provider slot free, the armed timer is
 exactly the earliest future instant at which some partition becomes dispatchable by time alone.
 */
module CoordTimer {
  import opened Seqs
  import opened StringOrder
  import opened CoordModel
  import opened CoordInvariant
  import opened CoordSteps
  import opened CoordDispatch
  import opened CoordTurns

  // ---------------------------------------------------------------- scheduling one partition leaves others alone

  /** Nothing outside partition `pk` changed, and no provider slot was freed. */
  ghost predicate Elsewhere(s: State, s': State, pk: string) {
    && s'.dyn == s.dyn && s.activeProvider <= s'.activeProvider
    && (forall q :: q != pk ==>
      (q in s'.partitions <==> q in s.partitions) && (q in s.partitions ==> s'.partitions[q] == s.partitions[q]))
    && (forall i :: i in s.items && s.items[i].part != pk ==> i in s'.items && s'.items[i] == s.items[i])
    && (forall i, w :: i in s.items && s.items[i].part != pk && w in s.items[i].waiters && w in s.waiters ==>
                         w in s'.waiters && s'.waiters[w] == s.waiters[w])
    && s'.waiters.Keys == s.waiters.Keys
  }

  lemma ElsewhereTrans(s: State, t: State, u: State, pk: string)
    requires Elsewhere(s, t, pk) && Elsewhere(t, u, pk)
    ensures Elsewhere(s, u, pk)
  {
    forall i | i in s.items && s.items[i].part != pk ensures i in u.items && u.items[i] == s.items[i] {
      assert i in t.items && t.items[i] == s.items[i];
    }
    forall i, w | i in s.items && s.items[i].part != pk && w in s.items[i].waiters && w in s.waiters
      ensures w in u.waiters && u.waiters[w] == s.waiters[w]
    {
      assert i in t.items && t.items[i] == s.items[i];
    }
  }

  lemma FinishPartitions(s: State, pk: string, id: nat, r: Option<Delivery>)
    ensures var s' := FinishItem(s, pk, id, r);
            && s'.partitions.Keys == s.partitions.Keys && s'.activeProvider == s.activeProvider
            && forall q :: q in s.partitions && q != pk ==> s'.partitions[q] == s.partitions[q]
  {
    hide RemoveActive, DeliverAll;
  }

  lemma {:induction false} FinishAllPartitions(s: State, pk: string, ids: seq<nat>, rs: seq<Option<Delivery>>)
    requires |ids| == |rs|
    ensures var s' := FinishAll(s, pk, ids, rs);
            && s'.partitions.Keys == s.partitions.Keys && s'.activeProvider == s.activeProvider
            && forall q :: q in s.partitions && q != pk ==> s'.partitions[q] == s.partitions[q]
  {
    hide FinishItem;
    if ids != [] {
      var n := |ids| - 1;
      FinishAllPartitions(s, pk, ids[..n], rs[..n]);
      FinishPartitions(FinishAll(s, pk, ids[..n], rs[..n]), pk, ids[n], rs[n]);
    }
  }

  lemma FinishElsewhere(cfg: Config, law: Law, s: State, X: set<nat>, pk: string, ids: seq<nat>,
                        rs: seq<Option<Delivery>>)
    requires |ids| == |rs| && Core(cfg, s, X) && Elems(ids) <= X && FinishReady(law, s, pk, ids, rs)
    ensures Elsewhere(s, FinishAll(s, pk, ids, rs), pk)
  {
    hide Core, FinishAll, Progress, FinishReady;
    FinishAllKeeps(cfg, law, s, X, pk, ids, rs);
    FinishAllPartitions(s, pk, ids, rs);
    var s' := FinishAll(s, pk, ids, rs);
    forall i | i in s.items && s.items[i].part != pk ensures i in s'.items && s'.items[i] == s.items[i] {
      NotOurs(law, s, pk, ids, rs, i);
    }
  }

  lemma NotOurs(law: Law, s: State, pk: string, ids: seq<nat>, rs: seq<Option<Delivery>>, i: nat)
    requires |ids| == |rs| && FinishReady(law, s, pk, ids, rs) && i in s.items && s.items[i].part != pk
    ensures i !in Elems(ids)
  {
    hide Loose, Deliverable;
  }

  lemma CutElsewhere(cfg: Config, s: State, pk: string)
    requires pk in s.partitions
    ensures Elsewhere(s, Cut(cfg, s, pk), pk)
  {
    hide Select;
  }

  lemma StartElsewhere(s: State, pk: string, sel: Selection)
    requires pk in s.partitions && forall id :: id in sel.selected && id in s.items ==> s.items[id].part == pk
    ensures Elsewhere(s, StartBatch(s, pk, sel), pk)
  {
    StartFields(s, pk, sel);
    hide StartBatch, SumActive, BatchDeadline;
  }

  lemma StartableOurs(cfg: Config, s: State, pk: string, sel: Selection)
    requires Startable(cfg, s, pk, sel)
    ensures forall id :: id in sel.selected && id in s.items ==> s.items[id].part == pk
  {
  }

  lemma DispatchElsewhere(cfg: Config, law: Law, s: State, pk: string)
    requires ConfigValid(cfg) && LawOk(law) && Core(cfg, s, {}) && pk in s.partitions
    requires s.activeProvider < MaxConcurrency(cfg, s)
    ensures Elsewhere(s, Dispatch(cfg, s, pk), pk)
  {
    hide ItemsOk, QueuesOk, BatchesOk, WaitersOk, DedupOk, CountersOk, ConfigValid, LawOk, Select, FinishAll, Progress,
      WithinLimits,
      Startable, StartBatch, Elsewhere, Sums, Splits, BatchFits, FinishReady, Picked, Apart;
    var sel := Select(cfg, MaxBatchSize(cfg, s), s.items, s.partitions[pk].pending);
    var s1 := Cut(cfg, s, pk);
    CutKeeps(cfg, law, s, pk);
    CutElsewhere(cfg, s, pk);
    FinishElsewhere(cfg, law, s1, Elems(sel.selected) + Elems(sel.gone), pk, sel.gone, sel.results);
    var s2 := FinishAll(s1, pk, sel.gone, sel.results);
    ElsewhereTrans(s, s1, s2, pk);
    TeardownKeeps(cfg, law, s, pk);
    if sel.selected != [] {
      SelectedKnown(cfg, s2, pk, sel);
      RequestAccepted(cfg, s2, Elems(sel.selected), sel.selected);
      StartableOurs(cfg, s2, pk, sel);
      StartElsewhere(s2, pk, sel);
      ElsewhereTrans(s, s2, StartBatch(s2, pk, sel), pk);
    }
  }

  lemma SelfElsewhere(s: State, pk: string)
    ensures Elsewhere(s, s, pk) && Elsewhere(s, MaybeRetire(s, pk), pk)
  {
  }

  /** Nothing more can be dispatched from this partition now. */
  ghost predicate Rests(cfg: Config, s: State, pk: string, force: bool, now: Time) {
    || pk !in s.partitions
    || s.activeProvider >= MaxConcurrency(cfg, s)
    || ShouldDispatch(cfg, s, s.partitions[pk], force, now).None?
  }

  lemma {:induction false} LoopRests(cfg: Config, law: Law, s: State, pk: string, force: bool, now: Time)
    requires ConfigValid(cfg) && LawOk(law) && Core(cfg, s, {})
    ensures var s' := DispatchLoop(cfg, s, pk, force, now);
            Core(cfg, s', {}) && Elsewhere(s, s', pk) && Rests(cfg, s', pk, force, now)
    decreases PendingCount(s, pk)
  {
    hide ConfigValid, LawOk, Core, Progress, Quiet, Dispatch, Elsewhere;
    SelfElsewhere(s, pk);
    PruneIdle(cfg, s, pk);
    if PendingCount(s, pk) != 0 && s.activeProvider < MaxConcurrency(cfg, s)
       && ShouldDispatch(cfg, s, s.partitions[pk], force, now).Some?
    {
      var t := Dispatch(cfg, s, pk);
      DispatchShrinks(cfg, s, pk);
      DispatchMoves(cfg, law, s, pk);
      DispatchElsewhere(cfg, law, s, pk);
      LoopRests(cfg, law, t, pk, force, now);
      ElsewhereTrans(s, t, DispatchLoop(cfg, t, pk, force, now), pk);
    }
  }

  lemma PartitionRests(cfg: Config, law: Law, s: State, pk: string, force: bool, now: Time)
    requires ConfigValid(cfg) && LawOk(law) && Core(cfg, s, {})
    ensures var s' := SchedulePartition(cfg, s, pk, force, now);
            Core(cfg, s', {}) && Elsewhere(s, s', pk) && Rests(cfg, s', pk, force, now)
  {
    hide ConfigValid, LawOk, Core, Elsewhere, DispatchLoop;
    SelfElsewhere(s, pk);
    LoopRests(cfg, law, s, pk, force, now);
    var t := DispatchLoop(cfg, s, pk, force, now);
    SelfElsewhere(t, pk);
    RetireKeeps(cfg, t, pk);
    RetireRests(cfg, t, pk, force, now);
    ElsewhereTrans(s, t, MaybeRetire(t, pk), pk);
  }

  lemma RetireRests(cfg: Config, s: State, pk: string, force: bool, now: Time)
    requires Rests(cfg, s, pk, force, now)
    ensures Rests(cfg, MaybeRetire(s, pk), pk, force, now)
  {
  }

  // ---------------------------------------------------------------- a partition at rest stays at rest

  lemma {:induction false} SameEarliest(ws: map<nat, Waiter>, ws': map<nat, Waiter>, ids: seq<nat>)
    requires ws'.Keys == ws.Keys && forall w :: w in ids && w in ws ==> ws'[w] == ws[w]
    ensures EarliestDeadline(ws', ids) == EarliestDeadline(ws, ids)
  {
    if ids != [] {
      assert ids[|ids| - 1] in ids;
      SameEarliest(ws, ws', ids[..|ids| - 1]);
    }
  }

  lemma {:induction false} SamePending(s: State, s': State, ids: seq<nat>)
    requires s'.waiters.Keys == s.waiters.Keys
    requires forall id :: id in ids ==> id in s.items && id in s'.items && s'.items[id] == s.items[id]
    requires forall id, w :: id in ids && id in s.items && w in s.items[id].waiters && w in s.waiters ==>
      s'.waiters[w] == s.waiters[w]
    ensures PendingDeadline(s', ids) == PendingDeadline(s, ids)
  {
    if ids != [] {
      var id := ids[|ids| - 1];
      assert id in ids;
      SamePending(s, s', ids[..|ids| - 1]);
      SameEarliest(s.waiters, s'.waiters, s.items[id].waiters);
    }
  }

  /** What decides dispatch and due time of a queue is untouched by work on another partition. */
  lemma SameDecision(cfg: Config, s: State, s': State, pk: string, q: string, force: bool, now: Time)
    requires Core(cfg, s, {}) && Elsewhere(s, s', pk) && q != pk && q in s.partitions
    ensures q in s'.partitions
    ensures ShouldDispatch(cfg, s', s'.partitions[q], force, now) == ShouldDispatch(cfg, s, s.partitions[q], force, now)
  {
    hide Core;
    QueueKnown(cfg, s, q);
    var p := s.partitions[q];
    SamePending(s, s', p.pending);
    if p.pending != [] {
      assert p.pending[0] in p.pending;
    }
  }

  lemma StillRests(cfg: Config, s: State, s': State, pk: string, q: string, force: bool, now: Time)
    requires Core(cfg, s, {}) && Elsewhere(s, s', pk) && q != pk && Rests(cfg, s, q, force, now)
    ensures Rests(cfg, s', q, force, now)
  {
    hide Core, ShouldDispatch;
    if q in s.partitions {
      SameDecision(cfg, s, s', pk, q, force, now);
    }
  }

  lemma {:induction false} AllRest(cfg: Config, law: Law, s: State, keys: seq<string>, force: bool, now: Time)
    requires ConfigValid(cfg) && LawOk(law) && Core(cfg, s, {}) && Distinct(keys)
    ensures var s' := ScheduleAll(cfg, s, keys, force, now);
            && Core(cfg, s', {})
            && (forall k :: k in keys ==> Rests(cfg, s', k, force, now))
            && (forall q :: q in s'.partitions ==> q in s.partitions)
  {
    hide ConfigValid, LawOk, Core, Rests, SchedulePartition;
    if keys != [] {
      var n := |keys| - 1;
      var pk := keys[n];
      AllRest(cfg, law, s, keys[..n], force, now);
      var t := ScheduleAll(cfg, s, keys[..n], force, now);
      PartitionRests(cfg, law, t, pk, force, now);
      var s' := SchedulePartition(cfg, t, pk, force, now);
      forall k | k in keys ensures Rests(cfg, s', k, force, now) {
        if k != pk {
          assert k in keys[..n];
          StillRests(cfg, t, s', pk, k, force, now);
        }
      }
      forall q | q in s'.partitions ensures q in s.partitions {
        if q == pk {
          NoNewPartition(cfg, t, pk, force, now);
        }
      }
    }
  }

  lemma NoNewPartition(cfg: Config, s: State, pk: string, force: bool, now: Time)
    ensures pk in SchedulePartition(cfg, s, pk, force, now).partitions ==> pk in s.partitions
  {
    hide DispatchLoop;
  }

  // ---------------------------------------------------------------- the timer

  /** The earliest of the due times of the listed partitions. */
  lemma {:induction false} EarliestDueSpec(cfg: Config, s: State, keys: seq<string>)
    ensures var r := EarliestDue(cfg, s, keys);
            && (r.None? <==> forall k :: k in keys && k in s.partitions ==> DueAt(cfg, s, s.partitions[k]).None?)
            && (r.Some? ==> exists k :: k in keys && k in s.partitions && DueAt(cfg, s, s.partitions[k]) == r)
            && (forall k :: k in keys && k in s.partitions && DueAt(cfg, s, s.partitions[k]).Some? ==>
                              r.Some? && r.value <= DueAt(cfg, s, s.partitions[k]).value)
  {
    hide DueAt;
    if keys != [] {
      var n := |keys| - 1;
      EarliestDueSpec(cfg, s, keys[..n]);
      assert forall k :: k in keys <==> k in keys[..n] || k == keys[n];
    }
  }

  /** A queue not due now becomes dispatchable exactly from its due time on. */
  lemma DueDecides(cfg: Config, s: State, p: Partition, now: Time, t: Time)
    requires cfg.flushMode.FixedWindow? || cfg.flushMode.DeadlineAware?
    requires ShouldDispatch(cfg, s, p, false, now).None?
    ensures DueAt(cfg, s, p).Some? ==> now < DueAt(cfg, s, p).value
    ensures ShouldDispatch(cfg, s, p, false, t).Some? <==> DueAt(cfg, s, p).Some? && DueAt(cfg, s, p).value <= t
  {
  }

  lemma SamePass(cfg: Config, s: State, timer: Option<Time>, p: Partition, force: bool, t: Time)
    ensures ShouldDispatch(cfg, s.(timer := timer), p, force, t) == ShouldDispatch(cfg, s, p, force, t)
    ensures DueAt(cfg, s.(timer := timer), p) == DueAt(cfg, s, p)
  {
    SameDeadlines(s, s.(timer := timer), p.pending);
  }

  lemma {:induction false} SameDeadlines(s: State, s': State, ids: seq<nat>)
    requires s'.items == s.items && s'.waiters == s.waiters
    ensures PendingDeadline(s', ids) == PendingDeadline(s, ids)
  {
    if ids != [] {
      SameDeadlines(s, s', ids[..|ids| - 1]);
    }
  }

  /** Some partition can be dispatched at `t` without being forced. */
  ghost predicate SomethingDue(cfg: Config, s: State, t: Time) {
    exists pk :: pk in s.partitions && ShouldDispatch(cfg, s, s.partitions[pk], false, t).Some?
  }

  lemma TimerFor(cfg: Config, s: State, now: Time, t: Time)
    requires cfg.flushMode.FixedWindow? || cfg.flushMode.DeadlineAware?
    requires forall pk :: pk in s.partitions ==> ShouldDispatch(cfg, s, s.partitions[pk], false, now).None?
    ensures var s' := ArmTimer(cfg, s, now);
            && (s'.timer.Some? ==> now < s'.timer.value)
            && (SomethingDue(cfg, s', t) <==> s'.timer.Some? && s'.timer.value <= t)
  {
    hide ShouldDispatch, DueAt;
    var keys := SortedKeys(s.partitions.Keys);
    var s' := ArmTimer(cfg, s, now);
    EarliestDueSpec(cfg, s, keys);
    forall pk | pk in s.partitions
      ensures DueAt(cfg, s, s.partitions[pk]).Some? ==> now < DueAt(cfg, s, s.partitions[pk]).value
      ensures ShouldDispatch(cfg, s', s'.partitions[pk], false, t).Some? <==>
              DueAt(cfg, s, s.partitions[pk]).Some? && DueAt(cfg, s, s.partitions[pk]).value <= t
    {
      DueDecides(cfg, s, s.partitions[pk], now, t);
      SamePass(cfg, s, s'.timer, s.partitions[pk], false, t);
    }
  }

  /**
   After a scheduling pass that ends with a free provider slot, in fixed-window or deadline-aware
   mode, nothing is dispatchable now, and at any instant `t` something is dispatchable if and only
   if the timer is armed and has fired by then.
   */
  lemma NoMissedWakeUp(cfg: Config, law: Law, s: State, now: Time, t: Time)
    requires ConfigValid(cfg) && LawOk(law) && Core(cfg, s, {})
    requires cfg.flushMode.FixedWindow? || cfg.flushMode.DeadlineAware?
    requires var s' := Schedule(cfg, s, false, now); s'.activeProvider < MaxConcurrency(cfg, s')
    ensures var s' := Schedule(cfg, s, false, now);
            && !SomethingDue(cfg, s', now)
            && (s'.timer.Some? ==> now < s'.timer.value)
            && (SomethingDue(cfg, s', t) <==> s'.timer.Some? && s'.timer.value <= t)
  {
    hide ConfigValid, LawOk, Core, ScheduleAll, ShouldDispatch, SomethingDue, EarliestDue;
    var keys := SortedKeys(s.partitions.Keys);
    var u := ScheduleAll(cfg, s, keys, false, now);
    AllRest(cfg, law, s, keys, false, now);
    TimerFor(cfg, u, now, now);
    TimerFor(cfg, u, now, t);
  }

  // ---------------------------------------------------------------- every slot taken

  /** Some queue's due time has come. */
  ghost predicate Overdue(cfg: Config, s: State, now: Time) {
    exists pk :: pk in s.partitions && DueAt(cfg, s, s.partitions[pk]).Some?
      && DueAt(cfg, s, s.partitions[pk]).value <= now
  }

  lemma ArmsForNow(cfg: Config, s: State, now: Time)
    ensures var s' := ArmTimer(cfg, s, now); s'.timer == Some(now) <==> Overdue(cfg, s', now)
  {
    hide DueAt;
    var s' := ArmTimer(cfg, s, now);
    EarliestDueSpec(cfg, s, SortedKeys(s.partitions.Keys));
    forall pk | pk in s.partitions ensures DueAt(cfg, s', s'.partitions[pk]) == DueAt(cfg, s, s.partitions[pk]) {
      SamePass(cfg, s, s'.timer, s.partitions[pk], false, now);
    }
  }

  /**
   A scheduling pass arms the timer for the very instant it runs at if and only if it leaves some
   queue overdue, and it does so only with every provider slot taken.
   */
  lemma RearmsAtOnce(cfg: Config, law: Law, s: State, now: Time)
    requires ConfigValid(cfg) && LawOk(law) && Core(cfg, s, {})
    requires cfg.flushMode.FixedWindow? || cfg.flushMode.DeadlineAware?
    ensures var s' := Schedule(cfg, s, false, now);
            && (s'.timer == Some(now) <==> Overdue(cfg, s', now))
            && (s'.timer == Some(now) ==> s'.activeProvider >= MaxConcurrency(cfg, s'))
  {
    hide ConfigValid, LawOk, Core, ScheduleAll, SomethingDue, EarliestDue, Overdue;
    ArmsForNow(cfg, ScheduleAll(cfg, s, SortedKeys(s.partitions.Keys), false, now), now);
    var s' := Schedule(cfg, s, false, now);
    if s'.activeProvider < MaxConcurrency(cfg, s') {
      NoMissedWakeUp(cfg, law, s, now, now);
    }
  }

  /** What a pass does with every slot taken: it may retire empty partitions, and nothing else. */
  ghost predicate OnlyRetires(s: State, s': State) {
    && s' == s.(partitions := s'.partitions)
    && (forall q :: q in s'.partitions ==> q in s.partitions && s'.partitions[q] == s.partitions[q])
    && (forall q :: q in s.partitions && s.partitions[q].pending != [] ==> q in s'.partitions)
  }

  lemma PendingIsLive(cfg: Config, s: State, pk: string)
    requires Core(cfg, s, {}) && pk in s.partitions && s.partitions[pk].pending != []
    ensures s.partitions[pk].live > 0
  {
    hide ItemsOk, BatchesOk, WaitersOk, DedupOk, CountersOk, WithinLimits, IndexOk;
    assert QueueOk(cfg, s, pk);
    var id := s.partitions[pk].pending[0];
    assert id in s.partitions[pk].pending;
    assert id in LiveIds(s.items, pk);
  }

  lemma {:induction false} FullPass(cfg: Config, s: State, keys: seq<string>, now: Time)
    requires Core(cfg, s, {}) && s.activeProvider >= MaxConcurrency(cfg, s)
    ensures Core(cfg, ScheduleAll(cfg, s, keys, false, now), {})
    ensures OnlyRetires(s, ScheduleAll(cfg, s, keys, false, now))
  {
    hide Core;
    if keys != [] {
      var n := |keys| - 1;
      FullPass(cfg, s, keys[..n], now);
      var t := ScheduleAll(cfg, s, keys[..n], false, now);
      RetireKeeps(cfg, t, keys[n]);
      if keys[n] in t.partitions && t.partitions[keys[n]].pending != [] {
        PendingIsLive(cfg, t, keys[n]);
      }
    }
  }

  /**
   With every slot taken and a queue overdue, every pass leaves both as they are and arms the timer for
   the instant it runs at: the loop is woken at once, over and over, until a slot is freed.
   */
  lemma FullSlotsRearmAtOnce(cfg: Config, s: State, now: Time, pk: string)
    requires Core(cfg, s, {}) && s.activeProvider >= MaxConcurrency(cfg, s) && pk in s.partitions
    requires DueAt(cfg, s, s.partitions[pk]).Some? && DueAt(cfg, s, s.partitions[pk]).value <= now
    ensures var s' := Schedule(cfg, s, false, now);
            && s'.timer == Some(now)
            && Core(cfg, s', {}) && s'.activeProvider >= MaxConcurrency(cfg, s') && pk in s'.partitions
            && DueAt(cfg, s', s'.partitions[pk]) == DueAt(cfg, s, s.partitions[pk])
  {
    hide Core, DueAt, ScheduleAll, EarliestDue, OnlyRetires, Progress, Quiet;
    var t := ScheduleAll(cfg, s, SortedKeys(s.partitions.Keys), false, now);
    FullPass(cfg, s, SortedKeys(s.partitions.Keys), now);
    Untouched(cfg, s, t, pk);
    ArmsForNow(cfg, t, now);
    var s' := Schedule(cfg, s, false, now);
    TimerMoves(cfg, (p, k, d) => true, t, s'.timer);
    SamePass(cfg, t, s'.timer, t.partitions[pk], false, now);
    assert pk in s'.partitions && DueAt(cfg, s', s'.partitions[pk]).value <= now;
  }

  lemma Untouched(cfg: Config, s: State, s': State, pk: string)
    requires OnlyRetires(s, s') && pk in s.partitions && DueAt(cfg, s, s.partitions[pk]).Some?
    ensures pk in s'.partitions && DueAt(cfg, s', s'.partitions[pk]) == DueAt(cfg, s, s.partitions[pk])
    ensures s'.activeProvider == s.activeProvider && s'.dyn == s.dyn
  {
    SameDeadlines(s, s', s.partitions[pk].pending);
  }
}
