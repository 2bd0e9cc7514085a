/**
 No submission is lost over any run: a caller without a reply is parked, unless it withdrew. A parked
 submission is taken up again only when a batch completes, so it may be left behind by everything else.
 */
module CoordParking {
  import opened Seqs
  import opened CoordModel
  import opened CoordInvariant
  import opened CoordSteps
  import opened CoordSubmit
  import opened CoordCancel
  import opened CoordTurns
  import opened CoordTheorems
  import opened CoordTotals

  /** Caller `w` has a submission in this list. */
  ghost predicate Listed(blocked: seq<SubmitReq>, w: nat) {
    exists i :: 0 <= i < |blocked| && blocked[i].waiter == w
  }

  ghost predicate Parked(s: State, w: nat) {
    Listed(s.blocked, w)
  }

  ghost predicate Answered(s: State, w: nat) {
    w in s.waiters && s.waiters[w].admit != []
  }

  // ---------------------------------------------------------------- what a step does to parked submissions

  /** Nothing was parked, withdrawn or answered. */
  ghost predicate Silent(s: State, s': State) {
    && s'.blocked == s.blocked && s'.waiters.Keys == s.waiters.Keys
    && forall w :: w in s.waiters ==> s'.waiters[w].admit == s.waiters[w].admit
  }

  /** Replies stay, whoever leaves the park has been answered, and no known caller enters it. */
  ghost predicate Serves(s: State, s': State, w: nat) {
    && (Answered(s, w) ==> Answered(s', w))
    && (Parked(s, w) ==> Parked(s', w) || Answered(s', w))
    && (!Parked(s, w) ==> !Parked(s', w))
  }

  lemma ServesTrans(s: State, t: State, u: State, w: nat)
    requires Serves(s, t, w) && Serves(t, u, w)
    ensures Serves(s, u, w)
  {
    hide Answered, Parked;
  }

  lemma SilentServes(s: State, s': State, w: nat)
    requires Silent(s, s')
    ensures Serves(s, s', w) && (Parked(s, w) <==> Parked(s', w)) && (Answered(s, w) <==> Answered(s', w))
  {
  }

  lemma SilentTrans(s: State, t: State, u: State)
    requires Silent(s, t) && Silent(t, u)
    ensures Silent(s, u)
  {
  }

  lemma ListedMore(blocked: seq<SubmitReq>, req: SubmitReq, w: nat)
    ensures Listed(blocked + [req], w) <==> Listed(blocked, w) || req.waiter == w
  {
    if Listed(blocked, w) {
      var i :| 0 <= i < |blocked| && blocked[i].waiter == w;
      assert (blocked + [req])[i].waiter == w;
    }
    if req.waiter == w {
      assert (blocked + [req])[|blocked|].waiter == w;
    }
    if Listed(blocked + [req], w) && req.waiter != w {
      var i :| 0 <= i < |blocked + [req]| && (blocked + [req])[i].waiter == w;
      assert blocked[i].waiter == w;
    }
  }

  // ---------------------------------------------------------------- submissions

  /** Only the submitting caller is touched: it is answered, or it is parked last. */
  ghost predicate Placed(s: State, s': State, req: SubmitReq) {
    && s'.waiters.Keys == s.waiters.Keys
    && (forall v :: v in s.waiters && v != req.waiter ==> s'.waiters[v].admit == s.waiters[v].admit)
    && (|| (Answered(s', req.waiter) && s'.blocked == s.blocked)
        || (s'.waiters == s.waiters && s'.blocked == s.blocked + [req]))
  }

  lemma ReplyPlaces(s: State, req: SubmitReq, a: Admission)
    requires req.waiter in s.waiters
    ensures Placed(s, Reply(s, req.waiter, a), req)
  {
  }

  lemma ParkPlaces(s: State, req: SubmitReq)
    ensures Placed(s, s.(blocked := s.blocked + [req]), req)
  {
  }

  lemma OverflowPlaces(cfg: Config, s: State, req: SubmitReq, fault: Fault)
    requires req.waiter in s.waiters
    ensures Placed(s, Overflow(cfg, s, req, fault), req)
  {
    hide Placed, Reply;
    ReplyPlaces(s, req, RunFallback);
    ReplyPlaces(s, req, Refused(fault));
    ParkPlaces(s, req);
  }

  lemma PlacePlaces(cfg: Config, s: State, req: SubmitReq, at: Time)
    requires req.part in s.partitions && req.waiter in s.waiters && s.waiters[req.waiter].admit == []
    ensures Placed(s, Place(cfg, s, req, at), req)
  {
    hide Placed, FindEqual, OverLimits, JoinItem, Enqueue, Overflow;
    var p := s.partitions[req.part];
    var equal := if cfg.dedup then FindEqual(cfg, s.items, Bucket(p.active, req.hash), req.key) else None;
    var over := OverLimits(cfg, p, req);
    if equal.Some? && equal.value in s.items {
      JoinPlaces(s, req, equal.value);
    } else if over.Some? {
      OverflowPlaces(cfg, s, req, QueueFull(over.value));
    } else {
      EnqueuePlaces(s, req, at);
    }
  }

  lemma JoinPlaces(s: State, req: SubmitReq, id: nat)
    requires req.part in s.partitions && id in s.items && req.waiter in s.waiters && s.waiters[req.waiter].admit == []
    ensures Placed(s, JoinItem(s, req, id), req)
  {
    hide JoinItem;
    JoinFields(s, req, id);
  }

  lemma EnqueuePlaces(s: State, req: SubmitReq, at: Time)
    requires req.part in s.partitions && req.waiter in s.waiters && s.waiters[req.waiter].admit == []
    ensures Placed(s, Enqueue(s, req, at), req)
  {
    hide Enqueue;
    EnqueueFields(s, req, at);
  }

  lemma SamePlaces(s: State, t: State, s': State, req: SubmitReq)
    requires Placed(t, s', req) && t.waiters == s.waiters && t.blocked == s.blocked
    ensures Placed(s, s', req)
  {
  }

  /** Every submission is answered or parked by the handler that takes it. */
  lemma SubmitPlaces(cfg: Config, s: State, req: SubmitReq, at: Time)
    requires req.waiter in s.waiters && s.waiters[req.waiter].admit == []
    ensures Placed(s, HandleSubmit(cfg, s, req, at), req)
  {
    hide Placed, Place, Overflow, Reply, FRESH_PARTITION;
    if s.closing {
      ReplyPlaces(s, req, Refused(EngineClosing));
    } else if req.part in s.partitions {
      PlacePlaces(cfg, s, req, at);
    } else if cfg.limits.maxPartitions > 0 && |s.partitions| >= cfg.limits.maxPartitions {
      OverflowPlaces(cfg, s, req, PartitionLimit);
    } else {
      var t := SetPartition(s, req.part, FRESH_PARTITION);
      PlacePlaces(cfg, t, req, at);
      SamePlaces(s, t, HandleSubmit(cfg, s, req, at), req);
    }
  }

  /** What resubmitting `reqs` does for one caller. */
  ghost predicate Retried(s: State, reqs: seq<SubmitReq>, s': State, w: nat) {
    && s'.waiters.Keys == s.waiters.Keys
    && (Answered(s, w) ==> Answered(s', w))
    && (Listed(reqs, w) ==> Parked(s', w) || Answered(s', w))
    && (!Listed(reqs, w) ==> !Parked(s', w))
  }

  lemma RetriedMore(s: State, reqs: seq<SubmitReq>, t: State, req: SubmitReq, s': State, w: nat)
    requires Retried(s, reqs, t, w) && Placed(t, s', req)
    ensures Retried(s, reqs + [req], s', w)
  {
    hide Listed;
    ListedMore(reqs, req, w);
    ListedMore(t.blocked, req, w);
  }

  lemma {:induction false} ResubmitRetries(cfg: Config, law: Law, s: State, reqs: seq<SubmitReq>, at: Time,
                                           rest: seq<SubmitReq>, w: nat)
    requires ConfigValid(cfg) && Core(cfg, s, {}) && s.blocked == [] && ParkedOk(cfg, s.waiters, reqs + rest)
    ensures Retried(s, reqs, Resubmit(cfg, s, reqs, at), w)
  {
    hide Core, ConfigValid, ParkedOk, Progress, HandleSubmit, Retried;
    if reqs == [] {
      RetriedNone(s, w);
    } else {
      var n := |reqs| - 1;
      assert reqs[..n] + ([reqs[n]] + rest) == reqs + rest && reqs[..n] + [reqs[n]] == reqs;
      ResubmitKeeps(cfg, law, s, reqs[..n], at, [reqs[n]] + rest);
      ResubmitRetries(cfg, law, s, reqs[..n], at, [reqs[n]] + rest, w);
      var t := Resubmit(cfg, s, reqs[..n], at);
      assert t.blocked + ([reqs[n]] + rest) == t.blocked + [reqs[n]] + rest;
      NextParked(cfg, t.waiters, t.blocked, reqs[n], rest);
      SubmitPlaces(cfg, t, reqs[n], at);
      RetriedMore(s, reqs[..n], t, reqs[n], HandleSubmit(cfg, t, reqs[n], at), w);
    }
  }

  lemma RetriedNone(s: State, w: nat)
    requires s.blocked == []
    ensures Retried(s, [], s, w)
  {
  }

  lemma RetryServes(cfg: Config, law: Law, s: State, at: Time, w: nat)
    requires ConfigValid(cfg) && Core(cfg, s, {}) && ParkedOk(cfg, s.waiters, s.blocked)
    ensures Serves(s, RetryBlocked(cfg, s, at), w) && RetryBlocked(cfg, s, at).waiters.Keys == s.waiters.Keys
  {
    hide ConfigValid, Core, ParkedOk, Resubmit, Progress;
    ParkKeeps(cfg, law, s, []);
    assert s.blocked + [] == s.blocked;
    ResubmitRetries(cfg, law, s.(blocked := []), s.blocked, at, [], w);
  }

  // ---------------------------------------------------------------- the other handlers

  lemma QuietSilent(s: State, s': State)
    requires Quiet(s, s')
    ensures Silent(s, s')
  {
  }

  lemma ScheduleSilent(cfg: Config, law: Law, s: State, force: bool, now: Time)
    requires ConfigValid(cfg) && LawOk(law) && Core(cfg, s, {})
    ensures Silent(s, Schedule(cfg, s, force, now))
  {
    hide ConfigValid, LawOk, Core, Schedule, Progress, Quiet, Silent;
    ScheduleMoves(cfg, law, s, force, now);
    QuietSilent(s, Schedule(cfg, s, force, now));
  }

  lemma CancelSilent(cfg: Config, law: Law, s: State, pk: string, w: nat)
    requires Core(cfg, s, {})
    ensures Silent(s, HandleCancel(s, pk, w))
  {
    hide Core, HandleCancel, Progress;
    CancelKeeps(cfg, law, s, pk, w);
    CancelWaiters(s, pk, w);
  }

  lemma DeliveredSilent(s: State, batch: nat, done: Completion)
    requires batch in s.inflight
    ensures Silent(s, Delivered(s, batch, done))
  {
    hide FinishAll, Results, Quiet;
    var b := s.inflight[batch];
    FinishAllQuiet(Taken(s, batch), b.partition, b.items, Results(done, b.items));
    QuietSilent(Taken(s, batch), FinishAll(Taken(s, batch), b.partition, b.items, Results(done, b.items)));
  }

  lemma CompleteServes(cfg: Config, law: Law, s: State, batch: nat, done: Completion, at: Time, w: nat)
    requires ConfigValid(cfg) && Inv(cfg, s) && Lawful(law, s, batch, done)
    ensures Serves(s, HandleComplete(cfg, s, batch, done, at), w)
    ensures HandleComplete(cfg, s, batch, done, at).waiters.Keys == s.waiters.Keys
  {
    hide ConfigValid, Core, ParkedOk, BarriersOk, Lawful, FinishAll, Results, Ages, MaybeRetire, RetryBlocked, Serves;
    if batch in s.inflight {
      var t := Delivered(s, batch, done);
      DeliveredKeeps(cfg, law, s, batch, done);
      DeliveredSilent(s, batch, done);
      SilentServes(s, t, w);
      RetryServes(cfg, law, t, at, w);
      ServesTrans(s, t, RetryBlocked(cfg, t, at), w);
    } else {
      SilentSelf(s);
      SilentServes(s, s, w);
    }
  }

  lemma SilentSelf(s: State)
    ensures Silent(s, s)
  {
  }

  lemma CancelledEngineSilent(s: State)
    ensures Silent(s, HandleEngineCancel(s))
  {
    hide Indexed, SignalAll;
  }

  lemma ControlSilent(cfg: Config, law: Law, s: State, kind: ControlKind, id: nat, at: Time)
    requires ConfigValid(cfg) && LawOk(law) && Core(cfg, s, {})
    ensures Silent(s, HandleControl(cfg, s, kind, id, at))
  {
    hide ConfigValid, LawOk, ItemsOk, QueuesOk, BatchesOk, WaitersOk, DedupOk, Progress, Schedule;
    var s0 := if kind == Close then s.(closing := true) else s;
    OnlyControl(cfg, law, s, s0);
    ScheduleSilent(cfg, law, s0, true, at);
  }

  /** The rest of a turn parks, withdraws and answers nobody. */
  lemma AfterSilent(cfg: Config, law: Law, s: State, e: Event, now: Time, expired: set<nat>)
    requires ConfigValid(cfg) && LawOk(law) && Core(cfg, Handle(cfg, s, e), {})
    ensures Silent(Handle(cfg, s, e), Turn(cfg, s, e, now, expired))
  {
    hide ConfigValid, LawOk, Core, Handle, Schedule, TryBarriers, SignalAll, Drained;
    ScheduleSilent(cfg, law, Handle(cfg, s, e), false, now);
  }

  /** The steps that may take up or withdraw a parked submission of `w`. */
  ghost predicate Takes(s: State, step: Step, w: nat) {
    step.Loop? && ((step.e.Complete? && step.e.batch in s.inflight) || step.e == Unblock(w))
  }

  // ---------------------------------------------------------------- one step of a run

  lemma {:induction false} UnparkOthers(blocked: seq<SubmitReq>, w: nat, v: nat)
    requires v != w
    ensures Listed(Unpark(blocked, w), v) <==> Listed(blocked, v)
  {
    if blocked != [] {
      var rest := blocked[1..];
      UnparkOthers(rest, w, v);
      assert blocked == [blocked[0]] + rest;
      ListedFirst(blocked[0], rest, v);
      ListedFirst(blocked[0], Unpark(rest, w), v);
    }
  }

  lemma ListedFirst(req: SubmitReq, rest: seq<SubmitReq>, w: nat)
    ensures Listed([req] + rest, w) <==> req.waiter == w || Listed(rest, w)
  {
    var all := [req] + rest;
    if req.waiter == w { assert all[0].waiter == w; }
    if Listed(rest, w) {
      var i :| 0 <= i < |rest| && rest[i].waiter == w;
      assert all[i + 1].waiter == w;
    }
    if Listed(all, w) && req.waiter != w {
      var i :| 0 <= i < |all| && all[i].waiter == w;
      assert rest[i - 1].waiter == w;
    }
  }

  lemma {:induction false} UnparkOwn(cfg: Config, ws: map<nat, Waiter>, blocked: seq<SubmitReq>, w: nat)
    requires ParkedOk(cfg, ws, blocked)
    ensures !Listed(Unpark(blocked, w), w)
  {
    hide ParkedReq;
    if blocked != [] {
      var rest := blocked[1..];
      assert forall i :: 0 <= i < |rest| ==> rest[i] == blocked[i + 1];
      if blocked[0].waiter != w {
        UnparkOwn(cfg, ws, rest, w);
        ListedFirst(blocked[0], Unpark(rest, w), w);
      }
    }
  }

  /** A handler and a caller it knows. */
  lemma HandleServes(cfg: Config, law: Law, s: State, e: Event, w: nat)
    requires ConfigValid(cfg) && LawOk(law) && Inv(cfg, s) && Enabled(cfg, law, s, e) && w in s.waiters
    ensures e != Unblock(w) ==> Serves(s, Handle(cfg, s, e), w)
    ensures e != Unblock(w) && !(e.Complete? && e.batch in s.inflight) && Parked(s, w) ==> Parked(Handle(cfg, s, e), w)
    ensures e == Unblock(w) ==> !Parked(Handle(cfg, s, e), w) && (Answered(s, w) ==> Answered(Handle(cfg, s, e), w))
  {
    hide ConfigValid, LawOk, Core, ParkedOk, BarriersOk, HandleSubmit, HandleCancel, HandleComplete, HandleControl,
      HandleEngineCancel, Schedule, Unpark, Lawful, Listed, Silent, Serves;
    SilentSelf(s);
    SilentServes(s, s, w);
    match e
    case Submit(req, deadline, at) => SubmitServes(cfg, s, req, deadline, at, w);
    case Cancel(part, v) =>
      CancelSilent(cfg, law, s, part, v);
      SilentServes(s, HandleCancel(s, part, v), w);
    case Unblock(v) => UnblockServes(cfg, s, v, w);
    case Complete(batch, done, at) =>
      CompleteServes(cfg, law, s, batch, done, at, w);
      CompleteUnknown(cfg, s, batch, done, at);
    case Control(kind, id, at) =>
      ControlSilent(cfg, law, s, kind, id, at);
      SilentServes(s, HandleControl(cfg, s, kind, id, at), w);
    case TimerFired(at) =>
      TimerMoves(cfg, law, s, None);
      TimerSilent(s);
      ScheduleSilent(cfg, law, s.(timer := None), false, at);
      SilentTwice(s, s.(timer := None), Schedule(cfg, s.(timer := None), false, at), w);
    case EngineCancel =>
      CancelledEngineSilent(s);
      SilentServes(s, HandleEngineCancel(s), w);
  }

  lemma SilentTwice(s: State, t: State, u: State, w: nat)
    requires Silent(s, t) && Silent(t, u)
    ensures Serves(s, u, w) && (Parked(s, w) <==> Parked(u, w))
  {
    SilentTrans(s, t, u);
    SilentServes(s, u, w);
  }

  lemma TimerSilent(s: State)
    ensures Silent(s, s.(timer := None))
  {
  }

  lemma CompleteUnknown(cfg: Config, s: State, batch: nat, done: Completion, at: Time)
    ensures batch !in s.inflight ==> HandleComplete(cfg, s, batch, done, at) == s
  {
    hide FinishAll, Results, RetryBlocked;
  }

  lemma SubmitServes(cfg: Config, s: State, req: SubmitReq, deadline: Option<Time>, at: Time, w: nat)
    requires req.waiter !in s.waiters && w in s.waiters
    ensures var s' := HandleSubmit(cfg, Arrive(s, req, deadline), req, at);
            Serves(s, s', w) && (Parked(s, w) ==> Parked(s', w))
  {
    hide HandleSubmit, Listed;
    SubmitPlaces(cfg, Arrive(s, req, deadline), req, at);
    ListedMore(s.blocked, req, w);
  }

  lemma UnblockServes(cfg: Config, s: State, v: nat, w: nat)
    requires ParkedOk(cfg, s.waiters, s.blocked)
    ensures var s' := s.(blocked := Unpark(s.blocked, v));
            && (v != w ==> Serves(s, s', w) && (Parked(s, w) ==> Parked(s', w)))
            && (v == w ==> !Parked(s', w) && (Answered(s, w) ==> Answered(s', w)))
  {
    hide ParkedOk, Listed, Unpark;
    if v == w {
      UnparkOwn(cfg, s.waiters, s.blocked, w);
    } else {
      UnparkOthers(s.blocked, v, w);
    }
  }

  /** What one step of a run does to a caller it knows. */
  lemma StepServes(cfg: Config, law: Law, s: State, step: Step, w: nat)
    requires ConfigValid(cfg) && LawOk(law) && Inv(cfg, s) && StepEnabled(cfg, law, s, step) && w in s.waiters
    ensures var s', out := Next(cfg, s, step), step.Loop? && step.e == Unblock(w);
            && (Answered(s, w) ==> Answered(s', w))
            && (!out && Parked(s, w) ==> Parked(s', w) || Answered(s', w))
            && (!Takes(s, step, w) && Parked(s, w) ==> Parked(s', w))
            && (out || !Parked(s, w) ==> !Parked(s', w))
  {
    hide ConfigValid, LawOk, Core, ParkedOk, BarriersOk, Handle, Turn, Enabled, Clamped, Listed, Silent;
    if step.Loop? {
      var h := Handle(cfg, s, step.e);
      HandleServes(cfg, law, s, step.e, w);
      HandleKeeps(cfg, law, s, step.e);
      AfterSilent(cfg, law, s, step.e, step.now, step.expired);
      SilentServes(h, Turn(cfg, s, step.e, step.now, step.expired), w);
    }
  }

  lemma HandlePlaces(cfg: Config, law: Law, s: State, e: Event, w: nat)
    requires ConfigValid(cfg) && LawOk(law) && Inv(cfg, s) && Enabled(cfg, law, s, e)
    requires w !in s.waiters && w in Handle(cfg, s, e).waiters
    ensures e.Submit? && e.req.waiter == w && (Parked(Handle(cfg, s, e), w) || Answered(Handle(cfg, s, e), w))
  {
    hide ConfigValid, LawOk, Core, ParkedOk, BarriersOk, HandleSubmit, HandleCancel, HandleComplete, HandleControl,
      HandleEngineCancel, Schedule, Unpark, Listed, Lawful;
    match e
    case Submit(req, deadline, at) =>
      var t := Arrive(s, req, deadline);
      SubmitPlaces(cfg, t, req, at);
      ListedMore(t.blocked, req, w);
    case Cancel(part, v) => CancelSilent(cfg, law, s, part, v);
    case Unblock(v) =>
    case Complete(batch, done, at) => CompleteServes(cfg, law, s, batch, done, at, w);
    case Control(kind, id, at) => ControlSilent(cfg, law, s, kind, id, at);
    case TimerFired(at) =>
      TimerMoves(cfg, law, s, None);
      ScheduleSilent(cfg, law, s.(timer := None), false, at);
    case EngineCancel => CancelledEngineSilent(s);
  }

  /** A caller that is new after a step has submitted in it, and was answered or parked. */
  lemma StepPlaces(cfg: Config, law: Law, s: State, step: Step, w: nat)
    requires ConfigValid(cfg) && LawOk(law) && Inv(cfg, s) && StepEnabled(cfg, law, s, step)
    requires w !in s.waiters && w in Next(cfg, s, step).waiters
    ensures step.Loop? && step.e.Submit? && step.e.req.waiter == w
    ensures Parked(Next(cfg, s, step), w) || Answered(Next(cfg, s, step), w)
  {
    hide ConfigValid, LawOk, Core, ParkedOk, BarriersOk, Handle, Turn, Clamped, Listed, Lawful;
    assert step.Loop?;
    var e := step.e;
    HandleKeeps(cfg, law, s, e);
    AfterSilent(cfg, law, s, e, step.now, step.expired);
    HandlePlaces(cfg, law, s, e, w);
    SilentServes(Handle(cfg, s, e), Turn(cfg, s, e, step.now, step.expired), w);
  }

  // ---------------------------------------------------------------- over runs

  /** Caller `w` withdrew its submission before state `i`. */
  ghost predicate Withdrew(states: seq<State>, steps: seq<Step>, i: nat, w: nat)
    requires i < |states| == |steps| + 1
  {
    exists k :: 0 <= k < i && w in states[k].waiters && steps[k].Loop? && steps[k].e == Unblock(w)
  }

  lemma WithdrewMore(states: seq<State>, steps: seq<Step>, i: nat, w: nat)
    requires 0 < i < |states| == |steps| + 1
    ensures Withdrew(states, steps, i, w) <==>
            || Withdrew(states, steps, i - 1, w)
            || (w in states[i - 1].waiters && steps[i - 1].Loop? && steps[i - 1].e == Unblock(w))
  {
    if w in states[i - 1].waiters && steps[i - 1].Loop? && steps[i - 1].e == Unblock(w) {
      assert 0 <= i - 1 < i && w in states[i - 1].waiters && steps[i - 1].Loop? && steps[i - 1].e == Unblock(w);
    }
  }

  /** A withdrawal is by a caller that was known. */
  lemma WithdrewKnown(cfg: Config, law: Law, states: seq<State>, steps: seq<Step>, i: nat, w: nat)
    requires ConfigValid(cfg) && LawOk(law) && IsRun(cfg, law, states, steps) && i < |states|
    ensures Withdrew(states, steps, i, w) ==> w in states[i].waiters
  {
    hide ConfigValid, LawOk, Ages, Flies, SignalsGrow, Advances, Newcomer;
    if Withdrew(states, steps, i, w) {
      var k :| 0 <= k < i && w in states[k].waiters && steps[k].Loop? && steps[k].e == Unblock(w);
      RunProgress(cfg, law, states, steps, k, i);
    }
  }

  lemma RunStepOf(cfg: Config, law: Law, states: seq<State>, steps: seq<Step>, i: nat)
    requires ConfigValid(cfg) && LawOk(law) && IsRun(cfg, law, states, steps) && i < |steps|
    ensures Inv(cfg, states[i]) && StepEnabled(cfg, law, states[i], steps[i])
    ensures states[i + 1] == Next(cfg, states[i], steps[i])
  {
    hide ConfigValid, LawOk, Inv, StepEnabled, Next;
    RunInvariant(cfg, law, states, steps, i);
  }

  /**
   In every reachable state a caller is parked if and only if it has had no reply and did not withdraw.
   So no submission is lost: it is answered, withdrawn, or still parked, also when the loop has stopped.
   */
  lemma {:induction false} NoneLost(cfg: Config, law: Law, states: seq<State>, steps: seq<Step>, i: nat, w: nat)
    requires ConfigValid(cfg) && LawOk(law) && IsRun(cfg, law, states, steps) && i < |states|
    requires w in states[i].waiters
    ensures Parked(states[i], w) <==> states[i].waiters[w].admit == [] && !Withdrew(states, steps, i, w)
  {
    hide ConfigValid, LawOk, IsRun, Core, ParkedOk, BarriersOk, Next, StepEnabled, Listed, Withdrew, Takes;
    RunInvariant(cfg, law, states, steps, i);
    ParkedUnanswered(cfg, states[i], w);
    StartsEmpty(cfg, law, states, steps);
    if i > 0 {
      var s, s', step := states[i - 1], states[i], steps[i - 1];
      RunStepOf(cfg, law, states, steps, i - 1);
      WithdrewMore(states, steps, i, w);
      if w in s.waiters {
        NoneLost(cfg, law, states, steps, i - 1, w);
        StepServes(cfg, law, s, step, w);
      } else {
        StepPlaces(cfg, law, s, step, w);
        WithdrewKnown(cfg, law, states, steps, i - 1, w);
      }
    }
  }

  lemma StartsEmpty(cfg: Config, law: Law, states: seq<State>, steps: seq<Step>)
    requires IsRun(cfg, law, states, steps)
    ensures |states| == |steps| + 1 && states[0] == INIT
  {
    hide Next, StepEnabled;
  }

  lemma ParkedUnanswered(cfg: Config, s: State, w: nat)
    requires ParkedOk(cfg, s.waiters, s.blocked)
    ensures Parked(s, w) ==> w in s.waiters && s.waiters[w].admit == []
  {
    if Parked(s, w) {
      var i :| 0 <= i < |s.blocked| && s.blocked[i].waiter == w;
      assert ParkedReq(cfg, s.waiters, s.blocked[i]);
    }
  }

  /**
   A parked submission stays parked for as long as no batch in flight completes and its caller does not
   withdraw, whatever room there may be: cancellations, timers, flushes, closing and new submissions
   leave it behind.
   */
  lemma {:induction false} LeftBehind(cfg: Config, law: Law, states: seq<State>, steps: seq<Step>, i: nat, j: nat,
                                      w: nat)
    requires ConfigValid(cfg) && LawOk(law) && IsRun(cfg, law, states, steps) && i <= j < |states|
    requires Parked(states[i], w) && forall k :: i <= k < j ==> !Takes(states[k], steps[k], w)
    ensures Parked(states[j], w) && w in states[j].waiters && states[j].waiters[w].admit == []
    decreases j
  {
    hide ConfigValid, LawOk, IsRun, Core, ParkedOk, BarriersOk, Next, StepEnabled, Parked, Takes;
    StartsEmpty(cfg, law, states, steps);
    RunInvariant(cfg, law, states, steps, j);
    if i < j {
      LeftBehind(cfg, law, states, steps, i, j - 1, w);
      RunStepOf(cfg, law, states, steps, j - 1);
      StepServes(cfg, law, states[j - 1], steps[j - 1], w);
    }
    ParkedUnanswered(cfg, states[j], w);
  }
}
