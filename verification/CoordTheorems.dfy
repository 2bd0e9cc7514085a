/**
 What holds over every run of a coordinator: any interleaving of submissions, cancellations,
 completions, control requests, timer firings, engine shutdown and adaptive settings.
 */
module CoordTheorems {
  import opened Seqs
  import opened Wire
  import opened CoordModel
  import opened CoordInvariant
  import opened CoordSteps
  import opened CoordSubmit
  import opened CoordTurns

  // ---------------------------------------------------------------- runs

  /** A turn of the loop, or a step taken by another goroutine between turns. */
  datatype Step =
    | Loop(e: Event, now: Time, expired: set<nat>)
    | Adapt(want: Settings)
    | ClearAdapt
    | OtherIds(n: nat)

  ghost function Next(cfg: Config, s: State, step: Step): (s': State) {
    match step
    case Loop(e, now, expired) => Turn(cfg, s, e, now, expired)
    case Adapt(want) => s.(dyn := Some(Clamped(cfg, want)))
    case ClearAdapt => s.(dyn := None)
    case OtherIds(n) => s.(requestSeq := s.requestSeq + n)
  }

  ghost predicate StepEnabled(cfg: Config, law: Law, s: State, step: Step) {
    step.Loop? ==> Enabled(cfg, law, s, step.e)
  }

  ghost predicate IsRun(cfg: Config, law: Law, states: seq<State>, steps: seq<Step>) {
    && |states| == |steps| + 1
    && states[0] == INIT
    && forall i :: 0 <= i < |steps| ==>
                     StepEnabled(cfg, law, states[i], steps[i]) && states[i + 1] == Next(cfg, states[i], steps[i])
  }

  lemma ClampBounds(cfg: Config, want: Settings)
    requires ConfigValid(cfg)
    ensures 1 <= Clamped(cfg, want).maxBatchSize <= cfg.maxBatchSize
    ensures 1 <= Clamped(cfg, want).maxConcurrency <= cfg.maxConcurrency
    ensures 1 <= want.maxBatchSize <= cfg.maxBatchSize ==> Clamped(cfg, want).maxBatchSize == want.maxBatchSize
    ensures !(1 <= want.maxBatchSize <= cfg.maxBatchSize) ==> Clamped(cfg, want).maxBatchSize == cfg.maxBatchSize
    ensures 1 <= want.maxConcurrency <= cfg.maxConcurrency ==> Clamped(cfg, want).maxConcurrency == want.maxConcurrency
    ensures !(1 <= want.maxConcurrency <= cfg.maxConcurrency) ==>
      Clamped(cfg, want).maxConcurrency == cfg.maxConcurrency
    ensures 0 < want.maxWait <= cfg.maxWait ==> Clamped(cfg, want).maxWait == want.maxWait
    ensures want.maxWait == 0 || want.maxWait > cfg.maxWait > 0 ==> Clamped(cfg, want).maxWait == cfg.maxWait
    ensures want.maxWait < 0 ==> Clamped(cfg, want).maxWait == 0
  {
  }

  lemma NextKeeps(cfg: Config, law: Law, s: State, step: Step)
    requires ConfigValid(cfg) && LawOk(law) && Inv(cfg, s) && StepEnabled(cfg, law, s, step)
    ensures Inv(cfg, Next(cfg, s, step)) && Progress(law, s, Next(cfg, s, step))
  {
    hide ConfigValid, LawOk, ItemsOk, QueuesOk, BatchesOk, WaitersOk, DedupOk, ParkedOk, BarriersOk, Turn, Enabled,
      Clamped, Evolves, Ages, Flies;
    var s' := Next(cfg, s, step);
    match step
    case Loop(e, now, expired) =>
      TurnKeeps(cfg, law, s, e, now, expired);
    case Adapt(want) =>
      ClampBounds(cfg, want);
      OnlyControl(cfg, law, s, s');
      SameSignals(s, s');
    case ClearAdapt =>
      OnlyControl(cfg, law, s, s');
      SameSignals(s, s');
    case OtherIds(n) =>
      OnlyControl(cfg, law, s, s');
      BarriersAge(s, s');
  }

  lemma InitInv(cfg: Config)
    requires ConfigValid(cfg)
    ensures Inv(cfg, INIT)
  {
  }

  /** Every reachable state satisfies the invariant. */
  lemma {:induction false} RunInvariant(cfg: Config, law: Law, states: seq<State>, steps: seq<Step>, i: nat)
    requires ConfigValid(cfg) && LawOk(law) && IsRun(cfg, law, states, steps) && i < |states|
    ensures Inv(cfg, states[i])
  {
    hide ConfigValid, LawOk, Inv, StepEnabled, Next;
    if i == 0 {
      InitInv(cfg);
    } else {
      RunInvariant(cfg, law, states, steps, i - 1);
      NextKeeps(cfg, law, states[i - 1], steps[i - 1]);
    }
  }

  /** Between any two states of a run, callers, items and barriers only move forward. */
  lemma {:induction false} RunProgress(cfg: Config, law: Law, states: seq<State>, steps: seq<Step>, i: nat, j: nat)
    requires ConfigValid(cfg) && LawOk(law) && IsRun(cfg, law, states, steps) && i <= j < |states|
    ensures Progress(law, states[i], states[j])
    decreases j
  {
    hide ConfigValid, LawOk, Inv, StepEnabled, Next, Progress;
    if i == j {
      NoChange(law, states[i]);
    } else {
      RunProgress(cfg, law, states, steps, i, j - 1);
      RunInvariant(cfg, law, states, steps, j - 1);
      NextKeeps(cfg, law, states[j - 1], steps[j - 1]);
      ProgressTrans(law, states[i], states[j - 1], states[j]);
    }
  }

  // ---------------------------------------------------------------- no lost or doubly answered caller

  predicate IsAdmitted(c: Waiter) { c.admit == [Admitted] }
  predicate IsDelivered(c: Waiter) { !c.active && |c.ch| == 1 }
  predicate IsCancelled(c: Waiter) { !c.active && c.ch == [] }

  /**
   Once resolved, a caller stays exactly as resolved: its channel holds the one result it was sent,
   or stays empty for ever after a cancellation. Until then the channel is empty.
   */
  lemma ResolvedOnce(cfg: Config, law: Law, states: seq<State>, steps: seq<Step>, i: nat, j: nat, w: nat)
    requires ConfigValid(cfg) && LawOk(law) && IsRun(cfg, law, states, steps) && i <= j < |states|
    requires w in states[i].waiters
    ensures w in states[j].waiters
    ensures |states[j].waiters[w].admit| <= 1 && states[i].waiters[w].admit <= states[j].waiters[w].admit
    ensures states[i].waiters[w].active ==> states[i].waiters[w].ch == []
    ensures !states[i].waiters[w].active ==> IsDelivered(states[i].waiters[w]) || IsCancelled(states[i].waiters[w])
    ensures IsDelivered(states[i].waiters[w]) ==>
      IsDelivered(states[j].waiters[w]) && states[j].waiters[w].ch == states[i].waiters[w].ch
    ensures IsCancelled(states[i].waiters[w]) ==> IsCancelled(states[j].waiters[w])
    ensures IsAdmitted(states[i].waiters[w]) ==> IsAdmitted(states[j].waiters[w])
  {
    hide ConfigValid, LawOk, IsRun, ItemsOk, QueuesOk, BatchesOk, DedupOk, CountersOk, ParkedOk, BarriersOk, Ages,
      Flies,
      SignalsGrow, WaiterOk, Advances;
    RunInvariant(cfg, law, states, steps, i);
    RunInvariant(cfg, law, states, steps, j);
    RunProgress(cfg, law, states, steps, i, j);
    StaysResolved(law, states[i], states[j], w);
  }

  lemma StaysResolved(law: Law, s: State, s': State, w: nat)
    requires w in s.waiters && w in s'.waiters && WaiterOk(s, w) && WaiterOk(s', w)
    requires Advances(law, s.waiters[w], s'.waiters[w])
    ensures var c, d := s.waiters[w], s'.waiters[w];
            && |d.admit| <= 1 && c.admit <= d.admit && (c.active ==> c.ch == [])
            && (!c.active ==> IsDelivered(c) || IsCancelled(c))
            && (IsDelivered(c) ==> IsDelivered(d) && d.ch == c.ch) && (IsCancelled(c) ==> IsCancelled(d))
            && (IsAdmitted(c) ==> IsAdmitted(d))
  {
  }

  /** A drained coordinator has resolved every caller it admitted. */
  lemma DrainedResolvesAll(cfg: Config, law: Law, states: seq<State>, steps: seq<Step>, i: nat, w: nat)
    requires ConfigValid(cfg) && LawOk(law) && IsRun(cfg, law, states, steps) && i < |states|
    requires Drained(states[i]) && w in states[i].waiters && IsAdmitted(states[i].waiters[w])
    ensures IsDelivered(states[i].waiters[w]) || IsCancelled(states[i].waiters[w])
  {
    RunInvariant(cfg, law, states, steps, i);
    DrainedEmpty(cfg, states[i]);
    hide ConfigValid, LawOk, IsRun, ItemsOk, QueuesOk, BatchesOk, DedupOk, ParkedOk, BarriersOk, Drained;
    assert WaiterOk(states[i], w);
  }

  lemma ClosedResolves(cfg: Config, s: State, w: nat)
    requires WaitersOk(s) && w in s.waiters && IsAdmitted(s.waiters[w])
    ensures w in Closed(s).waiters && !Closed(s).waiters[w].active
  {
    assert WaiterOk(s, w);
  }

  /** After an engine shutdown no admitted caller is left waiting, drained or not. */
  lemma EngineCancelResolvesAll(cfg: Config, law: Law, s: State, now: Time, expired: set<nat>, w: nat)
    requires ConfigValid(cfg) && LawOk(law) && Inv(cfg, s) && !s.stopped
    requires w in s.waiters && IsAdmitted(s.waiters[w])
    ensures var s' := Turn(cfg, s, EngineCancel, now, expired);
            w in s'.waiters && (IsDelivered(s'.waiters[w]) || IsCancelled(s'.waiters[w]))
  {
    hide ConfigValid, LawOk, ItemsOk, QueuesOk, BatchesOk, DedupOk, CountersOk, ParkedOk, BarriersOk, Ages, Flies,
      SignalsGrow,
      Quiet,
      Schedule, CompleteBarriers, FailBarriers, Drained, Indexed;
    var s' := Turn(cfg, s, EngineCancel, now, expired);
    var s1 := HandleEngineCancel(s);
    ClosedResolves(cfg, s, w);
    CancelIsClosed(s);
    EngineCancelKeeps(cfg, law, s);
    AfterHandle(cfg, law, s1, EngineCancel, now, expired, s');
    assert Advances(law, s1.waiters[w], s'.waiters[w]) && WaiterOk(s', w);
  }

  lemma CancelIsClosed(s: State)
    ensures HandleEngineCancel(s).waiters == Closed(s).waiters
  {
  }

  // ---------------------------------------------------------------- batching refines scalar calls

  /** The scalar function treats keys the strategy calls equal alike. */
  ghost predicate Respects(cfg: Config, f: (string, Key) -> Outcome) {
    forall p, a, b :: cfg.equal(a, b) ==> f(p, a) == f(p, b)
  }

  /** Every answer a caller receives is the scalar function of its own partition and key. */
  ghost function ScalarLaw(f: (string, Key) -> Outcome): Law {
    (p: string, k: Key, d: Delivery) => d.Answer? ==> d.outcome == f(p, k)
  }

  /** A provider's outcome, field by field, says `r`: a value found, nothing found, or an error. */
  ghost predicate Says(o: RawOutcome, r: Outcome) {
    match r
    case Found(v) => o.found && o.err.None? && o.value == v
    case Missing => !o.found && o.err.None?
    case Failure(err) => o.err == Some(err)
  }

  /** The provider answered each item of the batch as `f` of the item's partition and key. */
  ghost predicate Truthful(f: (string, Key) -> Outcome, s: State, batch: nat, done: Completion) {
    done.Responded? && batch in s.inflight ==>
      forall o, id :: o in done.outcomes && id in s.inflight[batch].items && o.id == id && id in s.items ==>
                        Says(o, f(s.items[id].part, s.items[id].key))
  }

  ghost predicate Unrestricted(law: Law) {
    forall p, k, d :: law(p, k, d)
  }

  ghost predicate TruthfulRun(f: (string, Key) -> Outcome, states: seq<State>, steps: seq<Step>)
    requires |states| == |steps| + 1
  {
    forall i :: 0 <= i < |steps| && steps[i].Loop? && steps[i].e.Complete? ==>
                  Truthful(f, states[i], steps[i].e.batch, steps[i].e.done)
  }

  lemma AnswerIsScalar(f: (string, Key) -> Outcome, s: State, batch: nat, done: Completion, i: nat)
    requires batch in s.inflight && Truthful(f, s, batch, done)
    requires i < |s.inflight[batch].items| && s.inflight[batch].items[i] in s.items
    ensures var d := Results(done, s.inflight[batch].items)[i];
            var it := s.items[s.inflight[batch].items[i]];
            d.Some? && (d.value.Answer? ==> d.value.outcome == f(it.part, it.key))
  {
    var ids := s.inflight[batch].items;
    ResultsSome(done, ids);
    if done.Responded? && Answers(done.outcomes, ids) {
      assert ids[i] in ids;
      AnswersOncePerId(done.outcomes, ids, ids[i]);
    }
  }

  lemma TruthfulIsLawful(cfg: Config, f: (string, Key) -> Outcome, s: State, batch: nat, done: Completion)
    requires Respects(cfg, f) && ItemsOk(cfg, s, {}) && Truthful(f, s, batch, done)
    ensures Lawful(ScalarLaw(f), s, batch, done)
  {
    hide HeldOk, Results, Truthful;
    if batch in s.inflight {
      var ids := s.inflight[batch].items;
      ResultsSome(done, ids);
      forall i, w | 0 <= i < |ids| && ids[i] in s.items && w in s.items[ids[i]].waiters && w in s.waiters
        ensures ScalarLaw(f)(s.waiters[w].part, s.waiters[w].key, Results(done, ids)[i].value)
      {
        AnswerIsScalar(f, s, batch, done, i);
        assert ItemOk(cfg, s, {}, ids[i]);
        assert CallerOf(cfg, s.waiters, s.items[ids[i]], w);
      }
    }
  }

  lemma TruthfulRunIsLawful(cfg: Config, law: Law, f: (string, Key) -> Outcome, states: seq<State>, steps: seq<Step>)
    requires ConfigValid(cfg) && LawOk(law) && Respects(cfg, f)
    requires IsRun(cfg, law, states, steps) && TruthfulRun(f, states, steps)
    ensures IsRun(cfg, ScalarLaw(f), states, steps)
  {
    hide ConfigValid, LawOk, Respects, Core, ParkedOk, BarriersOk, Next, Lawful, Truthful;
    forall i | 0 <= i < |steps| ensures StepEnabled(cfg, ScalarLaw(f), states[i], steps[i]) {
      if steps[i].Loop? && steps[i].e.Complete? {
        RunInvariant(cfg, law, states, steps, i);
        CoreItems(cfg, states[i], {});
        TruthfulIsLawful(cfg, f, states[i], steps[i].e.batch, steps[i].e.done);
      }
      assert StepEnabled(cfg, law, states[i], steps[i]);
    }
  }

  lemma CoreItems(cfg: Config, s: State, X: set<nat>)
    requires Core(cfg, s, X)
    ensures ItemsOk(cfg, s, X)
  {
  }

  /** What identifies the request item built for a live item: who asks for which key at what weight. */
  ghost predicate SameAsked(s: State, s': State, id: nat) {
    && id in s.items && id in s'.items && s.items[id].id == id == s'.items[id].id
    && s'.items[id].part == s.items[id].part && s'.items[id].key == s.items[id].key
    && s'.items[id].weight == s.items[id].weight
  }

  /** The two states build requests for `ids` that agree in every id, key and weight. */
  ghost predicate SameRequest(s: State, s': State, ids: seq<nat>) {
    var r, r' := RequestFor(s, ids), RequestFor(s', ids);
    && |r| == |r'| == |ids|
    && forall k :: 0 <= k < |ids| ==>
       r'[k].id == r[k].id == ids[k] && r'[k].key == r[k].key && r'[k].weight == r[k].weight
  }

  lemma {:induction false} RequestSame(s: State, s': State, ids: seq<nat>)
    requires forall id :: id in ids ==> SameAsked(s, s', id)
    ensures SameRequest(s, s', ids)
  {
    hide EarliestDeadline, ClampWeight;
    if ids != [] {
      assert ids[|ids| - 1] in ids;
      RequestSame(s, s', ids[..|ids| - 1]);
    }
  }

  lemma BatchItem(cfg: Config, s: State, n: nat, id: nat)
    requires Core(cfg, s, {}) && n in s.inflight && id in s.inflight[n].items
    ensures id in s.items && s.items[id].id == id <= s.requestSeq
  {
    hide HeldOk, CallerOf, BatchLimits, CancelExact, QueuesOk, WaitersOk, DedupOk, CountersOk;
    assert BatchOk(cfg, s, {}, n) && ItemOk(cfg, s, {}, id);
  }

  lemma BatchNumbered(cfg: Config, s: State, n: nat)
    requires Core(cfg, s, {}) && n in s.inflight
    ensures n <= s.batchSeq
  {
    hide BatchLimits, CancelExact, ItemsOk, QueuesOk, WaitersOk, DedupOk, CountersOk;
    assert BatchOk(cfg, s, {}, n);
  }

  lemma BatchKept(cfg: Config, s: State, s': State, n: nat)
    requires Core(cfg, s, {}) && Core(cfg, s', {}) && Ages(s, s') && Flies(s, s')
    requires n in s.inflight && n in s'.inflight
    ensures s'.inflight[n].items == s.inflight[n].items
    ensures forall id :: id in s.inflight[n].items ==> SameAsked(s, s', id)
  {
    hide Core;
    BatchNumbered(cfg, s, n);
    forall id | id in s.inflight[n].items ensures SameAsked(s, s', id) {
      BatchItem(cfg, s, n, id);
      BatchItem(cfg, s', n, id);
    }
  }

  /**
   While a batch is in flight its items, and the ids, keys and weights of the request built from them,
   are the ones it was dispatched with; so being truthful at completion is being truthful to the request.
   */
  lemma RequestKept(cfg: Config, law: Law, states: seq<State>, steps: seq<Step>, i: nat, j: nat, n: nat)
    requires ConfigValid(cfg) && LawOk(law) && IsRun(cfg, law, states, steps) && i <= j < |states|
    requires n in states[i].inflight && n in states[j].inflight
    ensures states[j].inflight[n].items == states[i].inflight[n].items
    ensures SameRequest(states[i], states[j], states[i].inflight[n].items)
    ensures forall id :: id in states[i].inflight[n].items ==> SameAsked(states[i], states[j], id)
  {
    RunInvariant(cfg, law, states, steps, i);
    RunInvariant(cfg, law, states, steps, j);
    RunProgress(cfg, law, states, steps, i, j);
    hide ConfigValid, LawOk, IsRun, Core, ParkedOk, BarriersOk, Evolves, SignalsGrow, Ages, Flies, SameRequest,
      SameAsked;
    BatchKept(cfg, states[i], states[j], n);
    RequestSame(states[i], states[j], states[i].inflight[n].items);
  }

  /**
   Batching, deduplication and reordering are invisible: if the provider computes `f` of each key it
   is given, every answer any caller receives in any run is `f` of that caller's own key and partition.
   */
  lemma BatchingRefinesScalar(cfg: Config, law: Law, f: (string, Key) -> Outcome, states: seq<State>, steps: seq<Step>,
                              i: nat, w: nat)
    requires ConfigValid(cfg) && Unrestricted(law) && Respects(cfg, f)
    requires IsRun(cfg, law, states, steps) && TruthfulRun(f, states, steps)
    requires i < |states| && w in states[i].waiters
    ensures var c := states[i].waiters[w];
            |c.ch| <= 1 && (c.ch != [] && c.ch[0].Answer? ==> c.ch[0].outcome == f(c.part, c.key))
  {
    TruthfulRunIsLawful(cfg, law, f, states, steps);
    RunProgress(cfg, ScalarLaw(f), states, steps, 0, i);
    hide ConfigValid, Next, Ages, Flies, SignalsGrow, TruthfulRun;
    assert w !in INIT.waiters;
    assert Newcomer(ScalarLaw(f), states[i].waiters[w]);
  }

  // ---------------------------------------------------------------- what a completion delivers

  lemma FinishDelivers(s: State, pk: string, id: nat, r: Option<Delivery>, w: nat)
    requires id in s.items && w in s.waiters
    ensures var ws := FinishItem(s, pk, id, r).waiters;
            w in ws && ws[w] == if r.Some? && w in s.items[id].waiters && s.waiters[w].active
                                then s.waiters[w].(active := false, ch := s.waiters[w].ch + [r.value]) else s.waiters[w]
  {
    hide RemoveActive;
    if r.Some? {
      DeliverAllAt(s.waiters, s.items[id].waiters, r.value);
    }
  }

  lemma OutsideCaller(s: State, t: State, ids: seq<nat>, id: nat, w: nat)
    requires Outside(s, t, ids) && id in t.items && id in s.items && w in s.items[id].waiters && w in s.waiters
    ensures w in t.waiters && t.waiters[w] == s.waiters[w] && t.items[id] == s.items[id]
  {
  }

  lemma OutsideKeys(s: State, t: State, ids: seq<nat>)
    requires Outside(s, t, ids)
    ensures t.waiters.Keys == s.waiters.Keys
  {
  }

  lemma {:induction false} FinishAllDelivers(cfg: Config, law: Law, s: State, X: set<nat>, pk: string, ids: seq<nat>,
                                             rs: seq<Option<Delivery>>, i: nat, w: nat)
    requires |ids| == |rs| && i < |ids| && rs[i].Some?
    requires Core(cfg, s, X) && Elems(ids) <= X && FinishReady(law, s, pk, ids, rs)
    requires ids[i] in s.items && w in s.items[ids[i]].waiters && w in s.waiters && s.waiters[w].active
    ensures w in FinishAll(s, pk, ids, rs).waiters
    ensures FinishAll(s, pk, ids, rs).waiters[w] ==
      s.waiters[w].(active := false, ch := s.waiters[w].ch + [rs[i].value])
  {
    hide Core, Loose, Deliverable, Progress, FinishItem, Outside;
    var n := |ids| - 1;
    forall x | x in ids[..n] ensures x in ids { }
    assert Elems(ids[..n]) <= X;
    FinishAllKeeps(cfg, law, s, X, pk, ids[..n], rs[..n]);
    var t := FinishAll(s, pk, ids[..n], rs[..n]);
    StillReady(law, s, t, ids[..n], ids[n], rs[n]);
    LooseHome(t, ids[n]);
    OutsideKeys(s, t, ids[..n]);
    FinishDelivers(t, pk, ids[n], rs[n], w);
    if i < n {
      FinishAllDelivers(cfg, law, s, X, pk, ids[..n], rs[..n], i, w);
    } else {
      OutsideCaller(s, t, ids[..n], ids[n], w);
    }
  }

  /** What `done` gives the callers of item `id` of a batch with these ids, on the fields of the provider's outcomes. */
  ghost predicate Given(done: Completion, ids: seq<nat>, id: nat, d: Delivery) {
    match done
    case Panicked => d == Broken(ProviderPanic)
    case Failed(err) => d == Broken(GlobalFailure(err))
    case Responded(outcomes) =>
      if !Answers(outcomes, ids) then d == Broken(ContractViolation)
      else
        && (exists o :: o in outcomes && o.id == id)
        && forall o :: o in outcomes && o.id == id ==>
                         && (o.found && o.err.None? ==> d == Answer(Found(o.value)))
                         && (!o.found && o.err.None? ==> d == Answer(Missing))
                         && (o.err.Some? ==> d == Answer(Failure(o.err.value)))
  }

  lemma ResultsGiven(done: Completion, ids: seq<nat>, i: nat)
    requires i < |ids|
    ensures Results(done, ids)[i].Some? && Given(done, ids, ids[i], Results(done, ids)[i].value)
  {
    hide Answers;
    if done.Responded? && Answers(done.outcomes, ids) {
      assert ids[i] in ids;
      AnswersOncePerId(done.outcomes, ids, ids[i]);
    }
  }

  /**
   A completion gives each active caller of each batch item exactly that item's result: the value, the
   absence or the error the provider reported under its id. When the provider panics or fails every one
   of them is told so, and when the response does not answer exactly the batch's ids every one gets the
   contract violation and none a value.
   */
  lemma CompletionDelivers(cfg: Config, law: Law, s: State, batch: nat, done: Completion, at: Time, i: nat, w: nat)
    requires ConfigValid(cfg) && Unrestricted(law) && Inv(cfg, s) && batch in s.inflight
    requires i < |s.inflight[batch].items| && s.inflight[batch].items[i] in s.items
    requires w in s.items[s.inflight[batch].items[i]].waiters && w in s.waiters && s.waiters[w].active
    ensures var ids := s.inflight[batch].items;
            var s' := HandleComplete(cfg, s, batch, done, at);
            && w in s'.waiters && !s'.waiters[w].active
            && |s'.waiters[w].ch| == 1 && Given(done, ids, ids[i], s'.waiters[w].ch[0])
  {
    hide ConfigValid, Core, ParkedOk, BarriersOk, Lawful, FinishAll, RetryBlocked, FinishReady, Ages, Flies,
      SignalsGrow, MaybeRetire, Quiet, Outside, Results, Given;
    var b := s.inflight[batch];
    var rs := Results(done, b.items);
    ResultsSome(done, b.items);
    ResultsGiven(done, b.items, i);
    UnrestrictedLawful(law, s, batch, done);
    CompleteReady(cfg, law, s, batch, done);
    var s1 := Taken(s, batch);
    FinishAllKeeps(cfg, law, s1, Elems(b.items), b.partition, b.items, rs);
    FinishAllDelivers(cfg, law, s1, Elems(b.items), b.partition, b.items, rs, i, w);
    EmptyBefore(cfg, s, w);
    assert Elems(b.items) - Elems(b.items) == {};
    var s2 := FinishAll(s1, b.partition, b.items, rs);
    FinishAllQuiet(s1, b.partition, b.items, rs);
    RetireMoves(cfg, law, s2, b.partition);
    var s3 := MaybeRetire(s2, b.partition);
    QuietTrans(s1, s2, s3);
    ParkedQuiet(cfg, s1, s3);
    RetryKeeps(cfg, law, s3, at);
    assert Advances(law, s2.waiters[w], s3.waiters[w]);
    assert Advances(law, s3.waiters[w], RetryBlocked(cfg, s3, at).waiters[w]);
  }

  lemma UnrestrictedLawful(law: Law, s: State, batch: nat, done: Completion)
    requires Unrestricted(law)
    ensures Lawful(law, s, batch, done)
  {
    if batch in s.inflight {
      ResultsSome(done, s.inflight[batch].items);
    }
  }

  lemma EmptyBefore(cfg: Config, s: State, w: nat)
    requires Core(cfg, s, {}) && w in s.waiters && s.waiters[w].active
    ensures s.waiters[w].ch == []
  {
    assert WaiterOk(s, w);
  }

  // ---------------------------------------------------------------- barriers

  /**
   A barrier recorded by step `i` and later answered nil means what it says, for the rest of the run:
   no item admitted before it is queued again, and after a drain or close none is in flight either.
   */
  lemma BarrierMeaning(cfg: Config, law: Law, states: seq<State>, steps: seq<Step>, i: nat, j: nat, k: nat, id: nat,
                       x: nat)
    requires ConfigValid(cfg) && LawOk(law) && IsRun(cfg, law, states, steps)
    requires i < j <= k < |states| && steps[i].Loop? && steps[i].e.Control? && steps[i].e.id == id
    requires id in states[j].signals && states[j].signals[id].sent == [Done]
    requires x in states[i].items && x in states[k].items
    ensures steps[i].e.kind == Flush && states[k].items[x].dispatched
  {
    ControlRecords(cfg, law, states[i], steps[i].e, steps[i].now, steps[i].expired) by {
      RunInvariant(cfg, law, states, steps, i);
    }
    assert states[i + 1] == Next(cfg, states[i], steps[i]);
    RunInvariant(cfg, law, states, steps, i);
    RunInvariant(cfg, law, states, steps, j);
    RunProgress(cfg, law, states, steps, i + 1, j);
    RunProgress(cfg, law, states, steps, j, k);
    RunProgress(cfg, law, states, steps, i, k);
    hide ConfigValid, LawOk, IsRun, Next, Evolves, QueuesOk, BatchesOk, WaitersOk, DedupOk, CountersOk, ParkedOk,
      HeldOk, CallerOf;
    assert ItemOk(cfg, states[i], {}, x);
    assert SignalOk(states[j], id);
    SettledAges(states[j], states[k], states[j].signals[id].kind, states[j].signals[id].upTo);
  }

  /** A barrier is answered at most once, and its answer is never withdrawn. */
  lemma BarrierAnsweredOnce(cfg: Config, law: Law, states: seq<State>, steps: seq<Step>, i: nat, j: nat, id: nat)
    requires ConfigValid(cfg) && LawOk(law) && IsRun(cfg, law, states, steps) && i <= j < |states|
    requires id in states[i].signals
    ensures id in states[j].signals && |states[j].signals[id].sent| <= 1
    ensures states[i].signals[id].sent != [] ==> states[j].signals[id].sent == states[i].signals[id].sent
  {
    hide ConfigValid, LawOk, IsRun, Evolves, Ages, Flies, Core, ParkedOk;
    RunInvariant(cfg, law, states, steps, j);
    RunProgress(cfg, law, states, steps, i, j);
    assert SignalOk(states[j], id);
  }

  /** A control request records a barrier that covers everything admitted so far. */
  lemma ControlRecords(cfg: Config, law: Law, s: State, e: Event, now: Time, expired: set<nat>)
    requires ConfigValid(cfg) && LawOk(law) && Inv(cfg, s) && e.Control? && Enabled(cfg, law, s, e)
    ensures var s' := Turn(cfg, s, e, now, expired);
            e.id in s'.signals && s'.signals[e.id].kind == e.kind && s'.signals[e.id].upTo >= s.submitSeq
  {
    hide ConfigValid, LawOk, Core, ParkedOk, BarriersOk, Evolves, Schedule, CompleteBarriers, FailBarriers, Drained,
      Quiet;
    var s0 := if e.kind == Close then s.(closing := true) else s;
    var s1 := Handle(cfg, s, e);
    HandleKeeps(cfg, law, s, e);
    AfterHandle(cfg, law, s1, e, now, expired, Turn(cfg, s, e, now, expired));
  }
}
