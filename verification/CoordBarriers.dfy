/**
 A barrier is answered as soon as it may be, and not before: the test the loop makes on queues and
 batches is that nothing the barrier covers is left, and a barrier kept has something to wait for.
 */
module CoordBarriers {
  import opened Seqs
  import opened CoordModel
  import opened CoordInvariant
  import opened CoordTurns

  lemma QueuedCovered(cfg: Config, s: State, upTo: nat)
    requires QueuesOk(cfg, s) && AnyPending(s, upTo)
    ensures exists id :: id in s.items && s.items[id].order <= upTo && !s.items[id].dispatched
  {
    hide WithinLimits, IndexOk;
    var pk, i :| pk in s.partitions && 0 <= i < |s.partitions[pk].pending|
                 && s.partitions[pk].pending[i] in s.items && s.items[s.partitions[pk].pending[i]].order <= upTo;
    assert QueueOk(cfg, s, pk);
    assert s.partitions[pk].pending[i] in s.partitions[pk].pending;
  }

  lemma InflightCovered(cfg: Config, s: State, upTo: nat)
    requires BatchesOk(cfg, s, {}) && AnyInflight(s, upTo) && upTo < MAX_UINT64
    ensures exists id :: id in s.items && s.items[id].order <= upTo && s.items[id].dispatched
  {
    hide CancelExact, BatchLimits;
    var n :| n in s.inflight && s.inflight[n].minSeq <= upTo;
    assert BatchOk(cfg, s, {}, n);
    var id :| id in s.inflight[n].items && id in s.items && s.items[id].order == s.inflight[n].minSeq;
  }

  /** The test on queues and batches is exactly that nothing covered is left. */
  lemma SatisfiedMeans(cfg: Config, s: State, b: Barrier)
    requires Core(cfg, s, {}) && b.upTo < MAX_UINT64
    ensures BarrierSatisfied(s, b) <==>
            forall id :: id in s.items && s.items[id].order <= b.upTo ==> b.kind == Flush && s.items[id].dispatched
  {
    hide ItemsOk, QueuesOk, BatchesOk, WaitersOk, DedupOk, CountersOk, AnyPending, AnyInflight;
    if BarrierSatisfied(s, b) {
      SatisfiedSettled(cfg, s, b);
    } else if AnyPending(s, b.upTo) {
      QueuedCovered(cfg, s, b.upTo);
    } else {
      InflightCovered(cfg, s, b.upTo);
    }
  }

  /** What becomes of one barrier in a pass over the barriers. */
  ghost predicate Fate(s: State, b: Barrier, expired: set<nat>, kept: seq<Barrier>, signals: map<nat, Signal>) {
    && b.id in signals
    && if b.id in expired then b !in kept && signals[b.id].sent == [TimedOut(b.kind)]
       else if BarrierSatisfied(s, b) then b !in kept && signals[b.id].sent == [Done]
       else b in kept && signals[b.id].sent == []
  }

  lemma FateStep(s: State, bs: seq<Barrier>, expired: set<nat>, b: Barrier, c: Barrier)
    requires Tried(s, bs, TryBarriers(s, bs, expired).0, TryBarriers(s, bs, expired).1)
    requires forall i :: 0 <= i < |bs| ==> bs[i].id != c.id
    requires b != c ==> b.id != c.id
    requires b != c ==> Fate(s, b, expired, TryBarriers(s, bs, expired).0, TryBarriers(s, bs, expired).1)
    requires c.id in s.signals && s.signals[c.id].sent == []
    ensures Fate(s, b, expired, TryBarriers(s, bs + [c], expired).0, TryBarriers(s, bs + [c], expired).1)
  {
    hide BarrierSatisfied, Settled;
    assert (bs + [c])[..|bs|] == bs;
    var kept, signals := TryBarriers(s, bs, expired).0, TryBarriers(s, bs, expired).1;
    assert !Listed(bs, c.id);
    if c in kept {
      SubseqIn(kept, bs, c);
    }
  }

  lemma {:induction false} FateOf(cfg: Config, s: State, n: nat, expired: set<nat>, i: nat)
    requires Core(cfg, s, {}) && BarriersOk(s) && i < n <= |s.barriers|
    ensures Fate(s, s.barriers[i], expired, TryBarriers(s, s.barriers[..n], expired).0,
                 TryBarriers(s, s.barriers[..n], expired).1)
  {
    hide Core, Fate, TryBarriers, Tried, SignalOk;
    var m := n - 1;
    assert s.barriers[..n] == s.barriers[..m] + [s.barriers[m]];
    TryKeeps(cfg, s, m, expired);
    if i < m {
      FateOf(cfg, s, m, expired, i);
    }
    FateStep(s, s.barriers[..m], expired, s.barriers[i], s.barriers[m]);
  }

  /**
   When the barriers are looked at, each is timed out if its caller's context has expired, answered nil if
   nothing it covers is queued or, except for a flush, in flight, and otherwise kept unanswered.
   */
  lemma BarrierFate(cfg: Config, s: State, expired: set<nat>, b: Barrier)
    requires Inv(cfg, s) && b in s.barriers && b.upTo < MAX_UINT64
    ensures var s' := CompleteBarriers(s, expired);
            && b.id in s'.signals
            && var left := exists id :: id in s.items && s.items[id].order <= b.upTo
                                        && (b.kind == Flush ==> !s.items[id].dispatched);
               && (b.id in expired ==> b !in s'.barriers && s'.signals[b.id].sent == [TimedOut(b.kind)])
               && (b.id !in expired && !left ==> b !in s'.barriers && s'.signals[b.id].sent == [Done])
               && (b.id !in expired && left ==> b in s'.barriers && s'.signals[b.id].sent == [])
  {
    hide Core, BarriersOk, ParkedOk, BarrierSatisfied, TryBarriers;
    var i :| 0 <= i < |s.barriers| && s.barriers[i] == b;
    FateOf(cfg, s, |s.barriers|, expired, i);
    assert s.barriers[..|s.barriers|] == s.barriers;
    SatisfiedMeans(cfg, s, b);
  }

  lemma KeptWereThere(cfg: Config, s: State, expired: set<nat>, b: Barrier)
    requires Core(cfg, s, {}) && BarriersOk(s) && b in CompleteBarriers(s, expired).barriers
    ensures b in s.barriers
  {
    hide Core, BarriersOk, TryBarriers;
    TryKeeps(cfg, s, |s.barriers|, expired);
    assert s.barriers[..|s.barriers|] == s.barriers;
    SubseqIn(CompleteBarriers(s, expired).barriers, s.barriers, b);
  }

  /** The barrier waits for this item: admitted before it and queued, or except for a flush in flight. */
  ghost predicate Covered(it: Item, b: Barrier) {
    it.order <= b.upTo && (b.kind == Flush ==> !it.dispatched)
  }

  /** A barrier still there after a turn has something to wait for: an item queued, or except for a flush in flight. */
  lemma KeptWaits(cfg: Config, law: Law, s: State, e: Event, now: Time, expired: set<nat>, b: Barrier)
    requires ConfigValid(cfg) && LawOk(law) && Inv(cfg, s) && Enabled(cfg, law, s, e)
    requires b in Turn(cfg, s, e, now, expired).barriers && b.upTo < MAX_UINT64
    ensures var s' := Turn(cfg, s, e, now, expired);
            && b.id !in expired
            && exists id :: id in s'.items && Covered(s'.items[id], b)
  {
    hide ConfigValid, LawOk, Core, ParkedOk, BarriersOk, Enabled, Schedule, CompleteBarriers, SignalAll, Drained,
      Progress,
      Quiet;
    HandleKeeps(cfg, law, s, e);
    EngineLeavesNone(s);
    var h := Handle(cfg, s, e);
    hide Handle;
    ScheduleMoves(cfg, law, h, false, now);
    var t := Schedule(cfg, h, false, now);
    MovesInv(cfg, law, h, t);
    KeptWereThere(cfg, t, expired, b);
    BarrierFate(cfg, t, expired, b);
    CompleteItems(t, expired);
  }

  lemma EngineLeavesNone(s: State)
    ensures HandleEngineCancel(s).barriers == []
  {
  }

  lemma CompleteItems(s: State, expired: set<nat>)
    ensures CompleteBarriers(s, expired).items == s.items
  {
  }
}
