/**
 What a scheduling pass leaves queued, told on the contents of the queues: with a provider slot left
 nothing that ought to have been flushed is still there, and nothing is flushed before its time.
 */
module CoordDue {
  import opened Seqs
  import opened StringOrder
  import opened CoordModel
  import opened CoordInvariant
  import opened CoordSubmit
  import opened CoordDispatch
  import opened CoordTurns
  import opened CoordTimer

  // ---------------------------------------------------------------- deadlines

  /** Caller `w` is waiting with deadline `t`. */
  ghost predicate Expects(ws: map<nat, Waiter>, w: nat, t: Time) {
    w in ws && ws[w].active && ws[w].deadline == Some(t)
  }

  /** The least deadline of the active callers listed, if any of them has one. */
  lemma {:induction false} EarliestSpec(ws: map<nat, Waiter>, ids: seq<nat>)
    ensures var r := EarliestDeadline(ws, ids);
            && (r.Some? ==> exists w :: w in ids && Expects(ws, w, r.value))
            && (forall w, t :: w in ids && Expects(ws, w, t) ==> r.Some? && r.value <= t)
  {
    if ids != [] {
      var n := |ids| - 1;
      EarliestSpec(ws, ids[..n]);
      assert forall w :: w in ids <==> w in ids[..n] || w == ids[n];
      var r := EarliestDeadline(ws, ids);
      if r.Some? && r != EarliestDeadline(ws, ids[..n]) {
        assert Expects(ws, ids[n], r.value);
      }
    }
  }

  /** A caller of one of the items listed waits with deadline `t`. */
  ghost predicate Awaits(s: State, ids: seq<nat>, id: nat, w: nat, t: Time) {
    id in ids && id in s.items && w in s.items[id].waiters && Expects(s.waiters, w, t)
  }

  /** Request item `i` carries the id and the key of its item, its weight in range, and its callers' least deadline. */
  lemma {:induction false} RequestMeans(s: State, ids: seq<nat>, i: nat)
    requires i < |ids| && forall id :: id in ids ==> id in s.items && s.items[id].id == id
    ensures |RequestFor(s, ids)| == |ids|
    ensures var it, b := s.items[ids[i]], RequestFor(s, ids)[i];
            && b.id == ids[i] && b.key == it.key && b.priority == 0
            && 1 <= b.weight <= MAX_INT64 && (1 <= it.weight <= MAX_INT64 ==> b.weight == it.weight)
            && (it.weight > MAX_INT64 ==> b.weight == MAX_INT64) && (it.weight < 1 ==> b.weight == 1)
            && (b.deadline.Some? ==> exists w :: w in it.waiters && Expects(s.waiters, w, b.deadline.value))
            && (forall w, t :: w in it.waiters && Expects(s.waiters, w, t) ==>
              b.deadline.Some? && b.deadline.value <= t)
  {
    var n := |ids| - 1;
    assert ids[n] in ids;
    if n > 0 {
      RequestMeans(s, ids[..n], if i < n then i else 0);
    }
    EarliestSpec(s.waiters, s.items[ids[n]].waiters);
  }

  const MAX_INT64 := 0x7FFF_FFFF_FFFF_FFFF

  lemma {:induction false} PendingSpec(s: State, ids: seq<nat>)
    ensures var r := PendingDeadline(s, ids);
            && (r.Some? ==> exists id, w :: Awaits(s, ids, id, w, r.value))
            && (forall id, w, t :: Awaits(s, ids, id, w, t) ==> r.Some? && r.value <= t)
  {
    if ids != [] {
      var n := |ids| - 1;
      PendingSpec(s, ids[..n]);
      hide EarliestDeadline, Expects;
      assert forall id :: id in ids <==> id in ids[..n] || id == ids[n];
      var r, r' := PendingDeadline(s, ids), PendingDeadline(s, ids[..n]);
      if ids[n] in s.items {
        EarliestSpec(s.waiters, s.items[ids[n]].waiters);
      }
      if r.Some? {
        if r == r' {
          var id, w :| Awaits(s, ids[..n], id, w, r.value);
          assert Awaits(s, ids, id, w, r.value);
        } else {
          var w :| w in s.items[ids[n]].waiters && Expects(s.waiters, w, r.value);
          assert Awaits(s, ids, ids[n], w, r.value);
        }
      }
      forall id, w, t | Awaits(s, ids, id, w, t) ensures r.Some? && r.value <= t {
        if id in ids[..n] {
          assert Awaits(s, ids[..n], id, w, t);
        }
      }
    }
  }

  // ---------------------------------------------------------------- when a queue is due

  /** The settings in force: the adaptive ones if there are any, otherwise those configured. */
  function InForce(cfg: Config, s: State): (r: Settings) {
    match s.dyn
    case Some(d) => d
    case None => Settings(cfg.maxWait, cfg.maxBatchSize, cfg.maxConcurrency)
  }

  /** A batch could be filled from the queue. */
  ghost predicate Full(cfg: Config, s: State, p: Partition) {
    || |p.pending| >= InForce(cfg, s).maxBatchSize
    || (cfg.maxBatchWeight > 0 && p.weight >= cfg.maxBatchWeight)
    || (cfg.maxBatchBytes > 0 && p.bytes >= cfg.maxBatchBytes)
  }

  /** The oldest item has waited long enough, or a caller's deadline is near. */
  ghost predicate TimeUp(cfg: Config, s: State, p: Partition, now: Time) {
    || (&& (cfg.flushMode.FixedWindow? || cfg.flushMode.DeadlineAware?) && InForce(cfg, s).maxWait > 0
        && p.pending != [] && p.pending[0] in s.items
        && s.items[p.pending[0]].enqueue + InForce(cfg, s).maxWait <= now)
    || (&& cfg.flushMode.DeadlineAware?
        && exists id, w, t :: Awaits(s, p.pending, id, w, t) && t - cfg.deadlineMargin <= now)
  }

  /** The test the code makes is about the contents of the queue. */
  lemma DueMeans(cfg: Config, s: State, p: Partition, force: bool, now: Time)
    requires forall id :: id in p.pending ==> id in s.items
    ensures ShouldDispatch(cfg, s, p, force, now).Some? <==>
            p.pending != [] && (force || cfg.flushMode.Immediate? || Full(cfg, s, p) || TimeUp(cfg, s, p, now))
  {
    PendingSpec(s, p.pending);
    hide PendingDeadline, Awaits;
    if p.pending != [] {
      assert p.pending[0] in p.pending;
      var d := PendingDeadline(s, p.pending);
      if d.Some? {
        var id, w :| Awaits(s, p.pending, id, w, d.value);
        assert d.value - cfg.deadlineMargin <= now ==>
            exists id, w, t :: Awaits(s, p.pending, id, w, t) && t - cfg.deadlineMargin <= now;
      }
    }
  }

  /** The reason given for a flush is a real one: forced, or the limit or the time it names was reached. */
  lemma ReasonIsReal(cfg: Config, s: State, p: Partition, force: bool, now: Time)
    requires forall id :: id in p.pending ==> id in s.items
    ensures var r := ShouldDispatch(cfg, s, p, force, now);
            && (r == Some(FlushManual) <==> p.pending != [] && force)
            && (r == Some(FlushSize) ==> |p.pending| >= InForce(cfg, s).maxBatchSize)
            && (r == Some(FlushWeight) ==> cfg.maxBatchWeight > 0 && p.weight >= cfg.maxBatchWeight)
            && (r == Some(FlushBytes) ==> cfg.maxBatchBytes > 0 && p.bytes >= cfg.maxBatchBytes)
            && (r == Some(FlushWait) ==> !Full(cfg, s, p) && (cfg.flushMode.Immediate? || TimeUp(cfg, s, p, now)))
            && (r == Some(FlushDeadline) ==> !Full(cfg, s, p) && cfg.flushMode.DeadlineAware? && TimeUp(cfg, s, p, now))
  {
    DueMeans(cfg, s, p, force, now);
  }

  // ---------------------------------------------------------------- nothing due is left

  lemma SlotsInForce(cfg: Config, s: State)
    ensures MaxConcurrency(cfg, s) == InForce(cfg, s).maxConcurrency
  {
  }

  /** What is left in one queue after a pass with a slot to spare. */
  ghost predicate Flushed(cfg: Config, s: State, p: Partition, force: bool, now: Time) {
    && (force || cfg.flushMode.Immediate? ==> p.pending == [])
    && |p.pending| < InForce(cfg, s).maxBatchSize
    && (cfg.maxBatchWeight > 0 ==> Total(s.items, Weight, p.pending) < cfg.maxBatchWeight)
    && (cfg.maxBatchBytes > 0 ==> Total(s.items, Bytes, p.pending) < cfg.maxBatchBytes)
    && (cfg.flushMode.FixedWindow? || cfg.flushMode.DeadlineAware? ==>
          InForce(cfg, s).maxWait > 0 && p.pending != [] ==>
            p.pending[0] in s.items && now < s.items[p.pending[0]].enqueue + InForce(cfg, s).maxWait)
    && (cfg.flushMode.DeadlineAware? ==>
          forall id, w, t :: Awaits(s, p.pending, id, w, t) ==> now < t - cfg.deadlineMargin)
  }

  lemma NoneIsFlushed(cfg: Config, s: State, pk: string, force: bool, now: Time)
    requires ConfigValid(cfg) && Core(cfg, s, {}) && pk in s.partitions
    requires ShouldDispatch(cfg, s, s.partitions[pk], force, now).None?
    ensures Flushed(cfg, s, s.partitions[pk], force, now)
  {
    hide Core, ConfigValid, ShouldDispatch, Awaits, CountOk, Total, Flushed, Full, TimeUp;
    var p := s.partitions[pk];
    QueueKnown(cfg, s, pk);
    DueMeans(cfg, s, p, force, now);
    CoreBounds(cfg, s);
    if p.pending == [] {
      EmptyFlushed(cfg, s, p, force, now);
    } else {
      QueueFlushed(cfg, s, p, force, now);
    }
  }

  lemma EmptyFlushed(cfg: Config, s: State, p: Partition, force: bool, now: Time)
    requires p.pending == [] && InForce(cfg, s).maxBatchSize >= 1
    ensures Flushed(cfg, s, p, force, now)
  {
    assert Total(s.items, Weight, []) == 0 && Total(s.items, Bytes, []) == 0;
  }

  lemma QueueFlushed(cfg: Config, s: State, p: Partition, force: bool, now: Time)
    requires p.pending != [] && (forall id :: id in p.pending ==> id in s.items) && WithinLimits(cfg, s.items, p)
    requires !force && !cfg.flushMode.Immediate? && !Full(cfg, s, p) && !TimeUp(cfg, s, p, now)
    ensures Flushed(cfg, s, p, force, now)
  {
    hide Awaits, Total;
    assert p.pending[0] in p.pending;
  }

  lemma CoreBounds(cfg: Config, s: State)
    requires ConfigValid(cfg) && Core(cfg, s, {})
    ensures InForce(cfg, s).maxBatchSize >= 1
  {
    hide ItemsOk, QueuesOk, BatchesOk, WaitersOk, DedupOk;
  }

  lemma SameFlushed(cfg: Config, s: State, timer: Option<Time>, p: Partition, force: bool, now: Time)
    requires Flushed(cfg, s, p, force, now)
    ensures Flushed(cfg, s.(timer := timer), p, force, now)
  {
    hide Total;
    assert forall id, w, t :: Awaits(s.(timer := timer), p.pending, id, w, t) ==> Awaits(s, p.pending, id, w, t);
  }

  /**
   A pass that ends with a free provider slot leaves nothing that ought to have been flushed. Forced, or in
   immediate mode, it empties every queue. In every mode what is left of a queue could not fill a batch by
   number, weight or bytes. In the timed modes no oldest item has waited its time, and in deadline-aware
   mode no waiting caller's deadline is within the margin.
   */
  lemma PassFlushes(cfg: Config, law: Law, s: State, force: bool, now: Time)
    requires ConfigValid(cfg) && LawOk(law) && Core(cfg, s, {})
    requires var s' := Schedule(cfg, s, force, now); s'.activeProvider < InForce(cfg, s').maxConcurrency
    ensures var s' := Schedule(cfg, s, force, now);
            forall pk :: pk in s'.partitions ==> Flushed(cfg, s', s'.partitions[pk], force, now)
  {
    hide ConfigValid, LawOk, Core, ScheduleAll, ShouldDispatch, EarliestDue, Flushed;
    var keys := SortedKeys(s.partitions.Keys);
    var u := ScheduleAll(cfg, s, keys, force, now);
    var s' := Schedule(cfg, s, force, now);
    AllRest(cfg, law, s, keys, force, now);
    SlotsInForce(cfg, u);
    forall pk | pk in s'.partitions ensures Flushed(cfg, s', s'.partitions[pk], force, now) {
      assert pk in keys && Rests(cfg, u, pk, force, now);
      NoneIsFlushed(cfg, u, pk, force, now);
      SameFlushed(cfg, u, s'.timer, u.partitions[pk], force, now);
    }
  }

  /** A control request forces a flush: with a slot to spare nothing is left queued, whatever the mode. */
  lemma ControlFlushes(cfg: Config, law: Law, s: State, kind: ControlKind, id: nat, at: Time)
    requires ConfigValid(cfg) && LawOk(law) && Core(cfg, s, {})
    requires var s' := HandleControl(cfg, s, kind, id, at); s'.activeProvider < InForce(cfg, s').maxConcurrency
    ensures var s' := HandleControl(cfg, s, kind, id, at);
            forall pk :: pk in s'.partitions ==> s'.partitions[pk].pending == []
  {
    hide ConfigValid, LawOk, ItemsOk, QueuesOk, BatchesOk, WaitersOk, DedupOk, Schedule, Progress;
    var s0 := if kind == Close then s.(closing := true) else s;
    OnlyControl(cfg, law, s, s0);
    PassFlushes(cfg, law, s0, true, at);
    var t := Schedule(cfg, s0, true, at);
    forall pk | pk in t.partitions ensures t.partitions[pk].pending == [] {
      assert Flushed(cfg, t, t.partitions[pk], true, at);
    }
  }

  // ---------------------------------------------------------------- nothing is flushed early

  lemma IdlePartition(cfg: Config, s: State, pk: string, force: bool, now: Time)
    requires Core(cfg, s, {}) && pk in s.partitions && s.partitions[pk].pending != []
    requires ShouldDispatch(cfg, s, s.partitions[pk], force, now).None?
    ensures SchedulePartition(cfg, s, pk, force, now) == s
  {
    hide Core, ShouldDispatch, Dispatch;
    PruneIdle(cfg, s, pk);
    PendingIsLive(cfg, s, pk);
  }

  lemma {:induction false} StaysQueued(cfg: Config, law: Law, s: State, keys: seq<string>, pk: string, now: Time)
    requires ConfigValid(cfg) && LawOk(law) && Core(cfg, s, {}) && pk in s.partitions && s.partitions[pk].pending != []
    requires ShouldDispatch(cfg, s, s.partitions[pk], false, now).None?
    ensures var s' := ScheduleAll(cfg, s, keys, false, now);
            && Core(cfg, s', {}) && pk in s'.partitions && s'.partitions[pk] == s.partitions[pk]
            && ShouldDispatch(cfg, s', s'.partitions[pk], false, now).None?
  {
    hide ConfigValid, LawOk, Core, ShouldDispatch, SchedulePartition;
    if keys != [] {
      var n := |keys| - 1;
      StaysQueued(cfg, law, s, keys[..n], pk, now);
      var t := ScheduleAll(cfg, s, keys[..n], false, now);
      if keys[n] == pk {
        IdlePartition(cfg, t, pk, false, now);
      } else {
        PartitionRests(cfg, law, t, keys[n], false, now);
        SameDecision(cfg, t, SchedulePartition(cfg, t, keys[n], false, now), keys[n], pk, false, now);
      }
    }
  }

  lemma NotYetDue(cfg: Config, s: State, pk: string, now: Time)
    requires Core(cfg, s, {}) && pk in s.partitions
    requires !cfg.flushMode.Immediate? && !Full(cfg, s, s.partitions[pk])
    requires cfg.flushMode.Manual? || !TimeUp(cfg, s, s.partitions[pk], now)
    ensures ShouldDispatch(cfg, s, s.partitions[pk], false, now).None?
  {
    hide Core, Full, CountOk, WithinLimits, ShouldDispatch, Awaits;
    QueueKnown(cfg, s, pk);
    DueMeans(cfg, s, s.partitions[pk], false, now);
  }

  /**
   An unforced pass leaves a queue exactly as it is while it cannot fill a batch and its time has not come;
   in manual mode its time never comes, in immediate mode it always has.
   */
  lemma NotBeforeTime(cfg: Config, law: Law, s: State, pk: string, now: Time)
    requires ConfigValid(cfg) && LawOk(law) && Core(cfg, s, {}) && pk in s.partitions && s.partitions[pk].pending != []
    requires !cfg.flushMode.Immediate? && !Full(cfg, s, s.partitions[pk])
    requires cfg.flushMode.Manual? || !TimeUp(cfg, s, s.partitions[pk], now)
    ensures var s' := Schedule(cfg, s, false, now); pk in s'.partitions && s'.partitions[pk] == s.partitions[pk]
  {
    hide ConfigValid, LawOk, Core, ShouldDispatch, ScheduleAll, EarliestDue, TimeUp, Full;
    NotYetDue(cfg, s, pk, now);
    StaysQueued(cfg, law, s, SortedKeys(s.partitions.Keys), pk, now);
  }
}
