/**
 Closing, shutting down and stopping, told on the contents of the state: who is told what, when the
 loop stops, and that every turn of the loop ends with nothing due left in the queues.
 */
module CoordShutdown {
  import opened Seqs
  import opened CoordModel
  import opened CoordInvariant
  import opened CoordSubmit
  import opened CoordTurns
  import opened CoordTimer
  import opened CoordDue

  // ---------------------------------------------------------------- drained

  /** The counters the code looks at are zero exactly if no item is left. */
  lemma DrainedMeans(cfg: Config, s: State)
    requires Core(cfg, s, {})
    ensures Drained(s) <==> s.items == map[]
  {
    if Drained(s) {
      hide *;
      DrainedEmpty(cfg, s);
    } else if s.items == map[] {
      hide ItemsOk, WaitersOk, DedupOk, WithinLimits, IndexOk;
      forall pk | pk in s.partitions ensures s.partitions[pk].live <= 0 {
        assert QueueOk(cfg, s, pk);
        assert LiveIds(s.items, pk) == {};
      }
    }
  }

  // ---------------------------------------------------------------- the engine shuts down

  /** What a shutdown does to one caller. */
  ghost predicate ToldClosed(c: Waiter, c': Waiter) {
    if c.active && c.admit == [Admitted] then c' == c.(active := false, ch := [Broken(EngineClosed)]) else c' == c
  }

  /**
   A shutdown of the engine tells every caller still waiting that the engine closed, and no one else;
   cancels every provider call; answers every barrier; and leaves queues and parked submissions.
   */
  lemma EngineCancelMeans(cfg: Config, s: State)
    requires Inv(cfg, s)
    ensures var s' := HandleEngineCancel(s);
            && s'.closing && s'.items == s.items && s'.partitions == s.partitions && s'.blocked == s.blocked
            && s'.waiters.Keys == s.waiters.Keys
            && (forall w :: w in s.waiters ==> ToldClosed(s.waiters[w], s'.waiters[w]))
            && s'.inflight.Keys == s.inflight.Keys
            && (forall n :: n in s.inflight ==> s'.inflight[n] == s.inflight[n].(cancelled := true))
            && s'.barriers == []
            && (forall i :: 0 <= i < |s.barriers| ==>
                              s.barriers[i].id in s'.signals && s'.signals[s.barriers[i].id].sent == [ShutDown])
  {
    hide QueuesOk, BatchesOk, DedupOk, ParkedOk, SignalAll, SignalOk;
    SignalAllAt(s.signals, s.barriers, ShutDown);
    var s' := HandleEngineCancel(s);
    forall w | w in s.waiters ensures ToldClosed(s.waiters[w], s'.waiters[w]) {
      CallerTold(cfg, s, w);
    }
    forall i | 0 <= i < |s.barriers|
      ensures s.barriers[i].id in s'.signals && s'.signals[s.barriers[i].id].sent == [ShutDown]
    {
      assert Listed(s.barriers, s.barriers[i].id);
    }
  }

  lemma CallerTold(cfg: Config, s: State, w: nat)
    requires ItemsOk(cfg, s, {}) && WaitersOk(s) && w in s.waiters
    ensures ToldClosed(s.waiters[w],
                       if Indexed(s, w) then Deliver(s.waiters, w, Broken(EngineClosed))[w] else s.waiters[w])
  {
    assert WaiterOk(s, w);
    if Indexed(s, w) {
      assert ItemOk(cfg, s, {}, s.waiters[w].home);
      assert CallerOf(cfg, s.waiters, s.items[s.waiters[w].home], w);
    }
  }

  // ---------------------------------------------------------------- control requests

  /** A control request adds one barrier covering every admission so far; a close also refuses new submissions. */
  lemma ControlMeans(cfg: Config, law: Law, s: State, kind: ControlKind, id: nat, at: Time)
    requires ConfigValid(cfg) && LawOk(law) && Core(cfg, s, {})
    ensures var s' := HandleControl(cfg, s, kind, id, at);
            && s'.barriers == s.barriers + [Barrier(id, kind, s.submitSeq)]
            && id in s'.signals && s'.signals[id] == Signal(kind, s.submitSeq, [])
            && (s'.closing <==> s.closing || kind == Close)
            && s'.stopped == s.stopped && s'.blocked == s.blocked && s'.submitSeq == s.submitSeq
  {
    hide ConfigValid, LawOk, ItemsOk, QueuesOk, BatchesOk, WaitersOk, DedupOk, Schedule, Progress;
    var s0 := if kind == Close then s.(closing := true) else s;
    OnlyControl(cfg, law, s, s0);
    ScheduleMoves(cfg, law, s0, true, at);
  }

  // ---------------------------------------------------------------- stopping

  /** Neither closing nor stopped changes. */
  ghost predicate KeepsOpen(s: State, s': State) {
    s'.closing == s.closing && s'.stopped == s.stopped
  }

  lemma JoinOpen(s: State, req: SubmitReq, id: nat)
    requires req.part in s.partitions && id in s.items && req.waiter in s.waiters
    ensures KeepsOpen(s, JoinItem(s, req, id))
  {
  }

  lemma EnqueueOpen(s: State, req: SubmitReq, at: Time)
    requires req.part in s.partitions && req.waiter in s.waiters
    ensures KeepsOpen(s, Enqueue(s, req, at))
  {
    hide NewItem, Bucket;
  }

  lemma PlaceOpen(cfg: Config, s: State, req: SubmitReq, at: Time)
    requires req.part in s.partitions && req.waiter in s.waiters
    ensures KeepsOpen(s, Place(cfg, s, req, at))
  {
    hide FindEqual, OverLimits, Bucket, JoinItem, Enqueue;
    EnqueueOpen(s, req, at);
    var p := s.partitions[req.part];
    var equal := if cfg.dedup then FindEqual(cfg, s.items, Bucket(p.active, req.hash), req.key) else None;
    if equal.Some? && equal.value in s.items {
      JoinOpen(s, req, equal.value);
    }
  }

  lemma SubmitOpen(cfg: Config, s: State, req: SubmitReq, at: Time)
    ensures KeepsOpen(s, HandleSubmit(cfg, s, req, at))
  {
    hide Place;
    if req.waiter in s.waiters {
      if req.part in s.partitions {
        PlaceOpen(cfg, s, req, at);
      } else {
        PlaceOpen(cfg, SetPartition(s, req.part, FRESH_PARTITION), req, at);
      }
    }
  }

  lemma {:induction false} ResubmitOpen(cfg: Config, s: State, reqs: seq<SubmitReq>, at: Time)
    ensures KeepsOpen(s, Resubmit(cfg, s, reqs, at))
  {
    hide HandleSubmit;
    if reqs != [] {
      ResubmitOpen(cfg, s, reqs[..|reqs| - 1], at);
      SubmitOpen(cfg, Resubmit(cfg, s, reqs[..|reqs| - 1], at), reqs[|reqs| - 1], at);
    }
  }

  lemma RetireOpen(s: State, pk: string)
    ensures KeepsOpen(s, MaybeRetire(s, pk))
  {
  }

  lemma RemoveOpen(s: State, pk: string, id: nat)
    ensures KeepsOpen(s, RemovePending(s, pk, id))
  {
    if pk in s.partitions && id in s.items {
      var p, it := s.partitions[pk], s.items[id];
      var q := p.(pending := RemoveFirst(p.pending, id), bytes := p.bytes - it.bytes, weight := p.weight - it.weight);
      DropOpen(SetPartition(s, pk, q), pk, id);
      RetireOpen(DropItem(SetPartition(s, pk, q), pk, id), pk);
      hide DropItem, MaybeRetire, RemoveFirst;
    }
  }

  lemma DropOpen(s: State, pk: string, id: nat)
    ensures KeepsOpen(s, DropItem(s, pk, id))
  {
    hide RemoveActive;
  }

  lemma DetachOpen(s: State, pk: string, w: nat)
    requires Attached(s, pk, w) && pk in s.partitions
    ensures KeepsOpen(s, Detach(s, pk, w))
  {
  }

  lemma CancelOpen(s: State, pk: string, w: nat)
    ensures KeepsOpen(s, HandleCancel(s, pk, w))
  {
    if Attached(s, pk, w) && pk in s.partitions {
      var id := s.waiters[w].home;
      var s1 := Detach(s, pk, w);
      DetachOpen(s, pk, w);
      RemoveOpen(s1, pk, id);
      hide RemovePending;
    }
  }

  lemma CompleteOpen(cfg: Config, s: State, batch: nat, done: Completion, at: Time)
    ensures KeepsOpen(s, HandleComplete(cfg, s, batch, done, at))
  {
    hide FinishAll, MaybeRetire, Resubmit, Results;
    if batch in s.inflight {
      var b := s.inflight[batch];
      var s1 := s.(inflight := s.inflight - {batch}, activeProvider := s.activeProvider - 1);
      var s2 := FinishAll(s1, b.partition, b.items, Results(done, b.items));
      FinishAllQuiet(s1, b.partition, b.items, Results(done, b.items));
      assert Quiet(s1, s2) ==> KeepsOpen(s1, s2);
      var s3 := MaybeRetire(s2, b.partition);
      RetireOpen(s2, b.partition);
      ResubmitOpen(cfg, s3.(blocked := []), s3.blocked, at);
    }
  }

  /** Only a close and a shutdown begin closing, and no handler stops the loop. */
  lemma HandleOpen(cfg: Config, law: Law, s: State, e: Event)
    requires ConfigValid(cfg) && LawOk(law) && Inv(cfg, s)
    ensures var s' := Handle(cfg, s, e);
            && s'.stopped == s.stopped
            && (s'.closing <==> s.closing || e.EngineCancel? || (e.Control? && e.kind == Close))
  {
    hide ConfigValid, LawOk, ItemsOk, QueuesOk, BatchesOk, WaitersOk, DedupOk, ParkedOk, BarriersOk, HandleSubmit,
      HandleCancel, HandleComplete, HandleControl, Schedule, Unpark, Progress;
    match e
    case Submit(req, deadline, at) => SubmitOpen(cfg, Arrive(s, req, deadline), req, at);
    case Cancel(part, w) => CancelOpen(s, part, w);
    case Unblock(w) =>
    case Complete(batch, done, at) => CompleteOpen(cfg, s, batch, done, at);
    case Control(kind, id, at) => ControlMeans(cfg, law, s, kind, id, at);
    case TimerFired(at) =>
      OnlyControl(cfg, law, s, s.(timer := None));
      ScheduleMoves(cfg, law, s.(timer := None), false, at);
    case EngineCancel =>
  }

  /** The loop stops at the end of a turn exactly if it is closing and no item is left, and then no barrier is left. */
  lemma StopMeans(cfg: Config, law: Law, s: State, e: Event, now: Time, expired: set<nat>)
    requires ConfigValid(cfg) && LawOk(law) && Inv(cfg, s) && Enabled(cfg, law, s, e)
    ensures var s' := Turn(cfg, s, e, now, expired);
            && (s'.stopped <==> s'.closing && s'.items == map[])
            && (s'.closing <==> s.closing || e.EngineCancel? || (e.Control? && e.kind == Close))
            && (s'.stopped ==> s'.barriers == [])
  {
    hide ConfigValid, LawOk, Core, ParkedOk, BarriersOk, Handle, Schedule, CompleteBarriers, FailBarriers, Drained,
      Progress;
    var s1 := Handle(cfg, s, e);
    HandleOpen(cfg, law, s, e);
    HandleKeeps(cfg, law, s, e);
    DrainedMeans(cfg, s1);
    if e.EngineCancel? && Drained(s1) {
      EngineCancelMeans(cfg, s);
      assert s1.barriers == [] by { HandleIsCancel(cfg, s, e); }
    } else {
      var t := Schedule(cfg, s1, false, now);
      ScheduleMoves(cfg, law, s1, false, now);
      var s2 := CompleteBarriers(t, expired);
      PassFrame(t, expired);
      MovesInv(cfg, law, s1, t);
      BarrierPassKeeps(cfg, law, t, expired);
      DrainedMeans(cfg, s2);
      FailFrame(s2, Done);
    }
  }

  // ---------------------------------------------------------------- what a turn leaves

  lemma FlushedFrame(cfg: Config, s: State, s': State, p: Partition, now: Time)
    requires Flushed(cfg, s, p, false, now) && s'.items == s.items && s'.waiters == s.waiters && s'.dyn == s.dyn
    ensures Flushed(cfg, s', p, false, now)
  {
    assert forall id, w, t :: Awaits(s', p.pending, id, w, t) == Awaits(s, p.pending, id, w, t);
  }

  lemma SizeInForce(cfg: Config, s: State)
    requires ConfigValid(cfg) && CountersOk(cfg, s)
    ensures InForce(cfg, s).maxBatchSize >= 1
  {
  }

  lemma NothingQueued(cfg: Config, s: State, pk: string)
    requires QueuesOk(cfg, s) && s.items == map[] && pk in s.partitions
    ensures s.partitions[pk].pending == []
  {
    assert QueueOk(cfg, s, pk);
  }

  /** Whatever the event, a turn that ends with a free provider slot leaves nothing that ought to have been flushed. */
  lemma TurnFlushes(cfg: Config, law: Law, s: State, e: Event, now: Time, expired: set<nat>, pk: string)
    requires ConfigValid(cfg) && LawOk(law) && Inv(cfg, s) && Enabled(cfg, law, s, e)
    requires var s' := Turn(cfg, s, e, now, expired);
             s'.activeProvider < InForce(cfg, s').maxConcurrency && pk in s'.partitions
    ensures var s' := Turn(cfg, s, e, now, expired); Flushed(cfg, s', s'.partitions[pk], false, now)
  {
    hide ConfigValid, LawOk, ItemsOk, QueuesOk, BatchesOk, WaitersOk, DedupOk, ParkedOk, BarriersOk, Handle, Schedule,
      CompleteBarriers, FailBarriers, Drained, Progress, Flushed;
    var s1 := Handle(cfg, s, e);
    HandleKeeps(cfg, law, s, e);
    if e.EngineCancel? && Drained(s1) {
      DrainedMeans(cfg, s1);
      NothingQueued(cfg, s1, pk);
      SizeInForce(cfg, s1);
      EmptyFlushed(cfg, Turn(cfg, s, e, now, expired), s1.partitions[pk], false, now);
    } else {
      var t := Schedule(cfg, s1, false, now);
      PassFrame(t, expired);
      FailFrame(CompleteBarriers(t, expired), Done);
      PassFlushes(cfg, law, s1, false, now);
      FlushedFrame(cfg, t, Turn(cfg, s, e, now, expired), t.partitions[pk], now);
    }
  }

  lemma SameDue(cfg: Config, s: State, s': State, t: Time)
    requires s'.items == s.items && s'.waiters == s.waiters && s'.dyn == s.dyn && s'.partitions == s.partitions
    ensures SomethingDue(cfg, s', t) <==> SomethingDue(cfg, s, t)
  {
    hide PendingDeadline;
    forall pk | pk in s.partitions
      ensures ShouldDispatch(cfg, s', s.partitions[pk], false, t) == ShouldDispatch(cfg, s, s.partitions[pk], false, t)
    {
      SameDeadlines(s, s', s.partitions[pk].pending);
    }
  }

  /**
   Whatever the event, a turn that ends with a free slot and does not stop leaves the timer right: in the
   timed modes something is due at an instant if and only if the timer is armed and has fired by then.
   */
  lemma TurnWakes(cfg: Config, law: Law, s: State, e: Event, now: Time, expired: set<nat>, t: Time)
    requires ConfigValid(cfg) && LawOk(law) && Inv(cfg, s) && Enabled(cfg, law, s, e)
    requires cfg.flushMode.FixedWindow? || cfg.flushMode.DeadlineAware?
    requires var s' := Turn(cfg, s, e, now, expired);
             s'.activeProvider < InForce(cfg, s').maxConcurrency && !s'.stopped
    ensures var s' := Turn(cfg, s, e, now, expired);
            && (s'.timer.Some? ==> now < s'.timer.value)
            && (SomethingDue(cfg, s', t) <==> s'.timer.Some? && s'.timer.value <= t)
  {
    hide ConfigValid, LawOk, ItemsOk, QueuesOk, BatchesOk, WaitersOk, DedupOk, ParkedOk, BarriersOk, Handle, Schedule,
      CompleteBarriers, FailBarriers, Drained, Progress, SomethingDue;
    var s1 := Handle(cfg, s, e);
    HandleKeeps(cfg, law, s, e);
    var u := Schedule(cfg, s1, false, now);
    PassFrame(u, expired);
    NoMissedWakeUp(cfg, law, s1, now, t);
    SameDue(cfg, u, Turn(cfg, s, e, now, expired), t);
  }

  lemma HandleIsCancel(cfg: Config, s: State, e: Event)
    requires e.EngineCancel?
    ensures Handle(cfg, s, e) == HandleEngineCancel(s)
  {
  }

  lemma PassFrame(s: State, expired: set<nat>)
    ensures var s' := CompleteBarriers(s, expired); s' == s.(barriers := s'.barriers, signals := s'.signals)
  {
    hide TryBarriers;
  }

  lemma FailFrame(s: State, r: BarrierReply)
    ensures var s' := FailBarriers(s, r); s' == s.(barriers := [], signals := s'.signals)
  {
    hide SignalAll;
  }
}
