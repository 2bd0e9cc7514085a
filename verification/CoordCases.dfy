/**
 Surprising behaviours at concrete runs and states: a queue headed by an oversized item leaves its
 totals too high, an overdue queue with every slot taken wakes the loop at once, a parked submission
 may be left behind, and with deduplication a batch may outlive its callers or be cancelled under one.
 */
module CoordCases {
  import opened Seqs
  import opened Wire
  import opened StringOrder
  import opened CoordModel
  import opened CoordInvariant
  import opened CoordSubmit
  import opened CoordTurns
  import opened CoordTheorems
  import opened CoordProperties
  import opened CoordTimer

  /** Keys all equal, one call at a time, batches of weight up to 5, queues of weight up to 10, a window of 100. */
  function CaseConfig(): (cfg: Config) {
    Config((a, b) => true, k => 0, QueueLimits(0, 0, 0, 10, 0), Reject, FixedWindow, 4, 5, 0, 100, 0, 1, false)
  }

  function Caller(k: Key, home: nat): (c: Waiter) {
    Waiter("p", k, None, true, [Admitted], [], home)
  }

  function Queued(k: Key, id: nat, weight: nat): (it: Item) {
    Item(id, id, "p", k, 0, weight, 0, 0, [id], 1, false, 0)
  }

  // ---------------------------------------------------------------- concrete turns

  /** The same state but for the timer, which no handler reads. */
  ghost predicate Like(s: State, a: State) {
    s == a.(timer := s.timer)
  }

  lemma TurnIs(cfg: Config, s: State, e: Event, h: State, r: State)
    requires Handle(cfg, s, e) == h && !e.EngineCancel? && Like(Schedule(cfg, h, false, 0), r)
    requires r.barriers == [] && !r.closing
    ensures Like(Turn(cfg, s, e, 0, {}), r)
  {
    hide Handle, Schedule, Drained;
  }

  lemma OnePass(cfg: Config, h: State, r: State)
    requires h.partitions.Keys == {"p"} && SchedulePartition(cfg, h, "p", false, 0) == r
    ensures Like(Schedule(cfg, h, false, 0), r)
  {
    hide SchedulePartition, EarliestDue;
    SortedUnique(["p"], {"p"});
    assert ["p"][..0] == [] && ["p"][0] == "p";
    assert ScheduleAll(cfg, h, [], false, 0) == h;
    assert ScheduleAll(cfg, h, ["p"], false, 0) == r;
  }

  /** The slot is taken, and the partition has an item. */
  ghost predicate Busy(cfg: Config, s: State) {
    && s.barriers == [] && !s.closing && s.partitions.Keys == {"p"} && s.partitions["p"].live > 0
    && s.activeProvider >= MaxConcurrency(cfg, s)
  }

  /** The slot is free, and the head of the queue has a caller and is due. */
  ghost predicate Ready(cfg: Config, s: State) {
    && s.partitions.Keys == {"p"} && s.partitions["p"].pending != [] && s.activeProvider < MaxConcurrency(cfg, s)
    && ShouldDispatch(cfg, s, s.partitions["p"], false, 0).Some?
    && var id := s.partitions["p"].pending[0]; id in s.items && s.items[id].activeWaiters != 0
  }

  /** With the slot taken a pass changes nothing. */
  lemma FullTurn(cfg: Config, s: State, e: Event, h: State)
    requires Handle(cfg, s, e) == h && !e.EngineCancel? && Busy(cfg, h)
    ensures Like(Turn(cfg, s, e, 0, {}), h)
  {
    hide Handle, Schedule, Turn;
    OnePass(cfg, h, h);
    TurnIs(cfg, s, e, h, h);
  }

  /** With the slot free and a flush due, a pass is one dispatch, after which the slot is taken. */
  lemma DispatchTurn(cfg: Config, s: State, e: Event, h: State, r: State)
    requires Handle(cfg, s, e) == h && !e.EngineCancel? && Ready(cfg, h) && Dispatch(cfg, h, "p") == r && Busy(cfg, r)
    ensures Like(Turn(cfg, s, e, 0, {}), r)
  {
    hide Handle, Schedule, Turn, Dispatch, ShouldDispatch;
    assert Prune(h, "p") == h;
    DispatchShrinks(cfg, h, "p");
    assert DispatchLoop(cfg, r, "p", false, 0) == r;
    assert DispatchLoop(cfg, h, "p", false, 0) == r;
    assert SchedulePartition(cfg, h, "p", false, 0) == r;
    OnePass(cfg, h, r);
    TurnIs(cfg, s, e, h, r);
  }

  // ---------------------------------------------------------------- a run with an oversized head

  function Request(k: Key, w: nat, weight: nat): (req: SubmitReq) {
    SubmitReq("p", k, 0, weight, 0, w)
  }

  /** Three submissions, of weight 5, `second` and 1, then the first batch fails, then one of weight 2. */
  function CaseEvent(k: Key, second: nat, n: nat): (e: Event) {
    match n
    case 0 => Submit(Request(k, 1, 5), None, 0)
    case 1 => Submit(Request(k, 2, second), None, 0)
    case 2 => Submit(Request(k, 3, 1), None, 0)
    case 3 => Complete(1, Failed(7), 0)
    case _ => Submit(Request(k, 4, 2), None, 0)
  }

  ghost function Reached(k: Key, second: nat, n: nat): (s: State) {
    if n == 0 then INIT else Turn(CaseConfig(), Reached(k, second, n - 1), CaseEvent(k, second, n - 1), 0, {})
  }

  function FirstItem(k: Key): (it: Item) {
    Queued(k, 1, 5).(dispatched := true, batchID := 1)
  }

  /** Item 1 is dispatched at once, because it fills a batch. */
  function AfterFirst(k: Key): (s: State) {
    INIT.(partitions := map["p" := Partition([], map[0 := [1]], 0, 0, 1, 1, [])], items := map[1 := FirstItem(k)],
    waiters := map[1 := Caller(k, 1)], inflight := map[1 := Batch([1], 1, "p", 1, None, false)],
    activeProvider := 1, batchSeq := 1, submitSeq := 1, requestSeq := 1)
  }

  /** Item 2 is queued: the one slot is taken. */
  function AfterSecond(k: Key, second: nat): (s: State) {
    AfterFirst(k).(partitions := map["p" := Partition([2], map[0 := [1, 2]], 0, second, 2, 2, [])],
    items := map[1 := FirstItem(k), 2 := Queued(k, 2, second)], waiters := map[1 := Caller(k, 1), 2 := Caller(k, 2)],
    submitSeq := 2, requestSeq := 2)
  }

  /** Item 3 is queued behind it. */
  function AfterThird(k: Key): (s: State) {
    AfterSecond(k, 9).(partitions := map["p" := Partition([2, 3], map[0 := [1, 2, 3]], 0, 10, 3, 3, [])],
    items := map[1 := FirstItem(k), 2 := Queued(k, 2, 9), 3 := Queued(k, 3, 1)],
    waiters := map[1 := Caller(k, 1), 2 := Caller(k, 2), 3 := Caller(k, 3)], submitSeq := 3, requestSeq := 3)
  }

  function Told(k: Key, home: nat, d: Delivery): (c: Waiter) {
    Caller(k, home).(active := false, ch := [d])
  }

  /** The first batch has failed and left; the oversized item now heads a queue with a free slot. */
  function Freed(k: Key): (s: State) {
    AfterThird(k).(partitions := map["p" := Partition([2, 3], map[0 := [2, 3]], 0, 10, 3, 2, [])],
    items := map[2 := Queued(k, 2, 9), 3 := Queued(k, 3, 1)],
    waiters := map[1 := Told(k, 1, Broken(GlobalFailure(7))), 2 := Caller(k, 2), 3 := Caller(k, 3)],
    inflight := map[], activeProvider := 0)
  }

  /** The oversized item has been given up and item 3 dispatched. */
  function Drifted(k: Key): (s: State) {
    Freed(k).(partitions := map["p" := Partition([], map[0 := [3]], 0, 9, 3, 1, [Queued(k, 2, 9)])],
    items := map[3 := Queued(k, 3, 1).(dispatched := true, batchID := 2)],
    waiters := map[1 := Told(k, 1, Broken(GlobalFailure(7))), 2 := Told(k, 2, Broken(ItemTooLarge)), 3 := Caller(k, 3)],
    inflight := map[2 := Batch([3], 1, "p", 3, None, false)], activeProvider := 1, batchSeq := 2)
  }

  lemma DispatchIs(cfg: Config, h: State, sel: Selection, t: State)
    requires "p" in h.partitions && Select(cfg, MaxBatchSize(cfg, h), h.items, h.partitions["p"].pending) == sel
    requires t == FinishAll(SetPartition(h, "p", Requeue(h.partitions["p"], h.items, sel)), "p", sel.gone, sel.results)
    requires sel.selected != [] && "p" in t.partitions && RequestValid(RequestFor(t, sel.selected))
    ensures Dispatch(cfg, h, "p") == StartBatch(t, "p", sel)
  {
    hide Select, FinishAll, RequestFor, RequestValid, StartBatch, Requeue;
  }

  lemma SelectStep(cfg: Config, items: map<nat, Item>, ids: seq<nat>, id: nat)
    requires id in items
    ensures Select(cfg, 4, items, ids + [id]) == SelectOne(cfg, 4, Select(cfg, 4, items, ids), items[id])
    ensures Records(items, ids + [id]) == Records(items, ids) + [items[id]]
  {
    assert (ids + [id])[..|ids|] == ids;
  }

  lemma SelectNothing(cfg: Config, items: map<nat, Item>)
    ensures Select(cfg, 4, items, []) == NO_SELECTION && Records(items, []) == []
  {
  }

  /** A request for a single item of positive weight is well formed. */
  lemma SingleRequest(s: State, id: nat)
    requires id >= 1 && id in s.items && s.items[id].id == id && 1 <= s.items[id].weight <= 5
    ensures RequestValid(RequestFor(s, [id]))
  {
    hide EarliestDeadline;
    assert [id][..0] == [];
    assert RequestFor(s, []) == [];
    var r := RequestFor(s, [id]);
    assert |r| == 1 && ItemValid(r[0]);
  }

  /** A batch of a single item whose caller has no deadline. */
  lemma SingleBatch(s: State, id: nat, sel: Selection)
    requires id in s.items && s.items[id].waiters == [id] && s.items[id].activeWaiters == 1 && sel.selected == [id]
    requires id in s.waiters && s.waiters[id].active && s.waiters[id].deadline.None?
    ensures SumActive(s.items, [id]) == 1 && BatchDeadline(s, [id]).None?
  {
    assert [id][..0] == [];
    assert LatestOf(s.waiters, []) == Latest(false, true, ZERO_TIME);
    assert LatestOf(s.waiters, [id]) == Latest(true, false, ZERO_TIME);
    assert BatchLatest(s, []) == Latest(false, true, ZERO_TIME);
    assert !BatchLatest(s, [id]).all;
  }

  // ---------------------------------------------------------------- the turns of the run

  function QueuedFirst(k: Key): (s: State) {
    INIT.(partitions := map["p" := Partition([1], map[0 := [1]], 0, 5, 1, 1, [])], items := map[1 := Queued(k, 1, 5)],
    waiters := map[1 := Caller(k, 1)], submitSeq := 1, requestSeq := 1)
  }

  /** The effect of queueing, map by map. */
  lemma EnqueueIs(t: State, req: SubmitReq, r: State)
    requires req.part in t.partitions && req.waiter in t.waiters && t.waiters[req.waiter].admit == []
    requires r == t.(partitions := r.partitions, items := r.items, waiters := r.waiters,
                     requestSeq := t.requestSeq + 1, submitSeq := t.submitSeq + 1)
    requires var p, id := t.partitions[req.part], t.requestSeq + 1;
             && r.partitions == t.partitions[req.part := p.(pending := p.pending + [id],
                                 active := p.active[req.hash := Bucket(p.active, req.hash) + [id]],
                                 bytes := p.bytes + req.bytes, weight := p.weight + req.weight,
                                 waiters := p.waiters + 1, live := p.live + 1)]
             && r.items == t.items[id := NewItem(t, req, 0)]
             && r.waiters == t.waiters[req.waiter := t.waiters[req.waiter].(home := id, admit := [Admitted])]
    ensures Enqueue(t, req, 0) == r
  {
    EnqueueFields(t, req, 0);
    hide Enqueue;
  }

  lemma FirstHandled(k: Key, second: nat)
    ensures Handle(CaseConfig(), INIT, CaseEvent(k, second, 0)) == QueuedFirst(k)
  {
    var s := Arrive(INIT, Request(k, 1, 5), None);
    var t := SetPartition(s, "p", FRESH_PARTITION);
    assert OverLimits(CaseConfig(), FRESH_PARTITION, Request(k, 1, 5)).None?;
    assert Place(CaseConfig(), t, Request(k, 1, 5), 0) == Enqueue(t, Request(k, 1, 5), 0);
    assert [] + [1] == [1] && map[][0 := [1]] == map[0 := [1]];
    EnqueueIs(t, Request(k, 1, 5), QueuedFirst(k));
  }

  lemma FirstDispatched(k: Key)
    ensures Dispatch(CaseConfig(), QueuedFirst(k), "p") == AfterFirst(k)
  {
    var cfg, h := CaseConfig(), QueuedFirst(k);
    var sel := Selection([1], [], [], [], 5, 0, 1);
    SelectNothing(cfg, h.items);
    SelectStep(cfg, h.items, [], 1);
    assert [] + [1] == [1];
    assert SelectOne(cfg, 4, NO_SELECTION, Queued(k, 1, 5)) == sel;
    hide Select, SumActive, BatchDeadline, RequestFor, RequestValid, Records, CaseConfig, Dispatch;
    var t := h.(partitions := map["p" := h.partitions["p"].(pending := [])]);
    assert h.partitions["p"].failed + Records(h.items, []) == [];
    assert FinishAll(SetPartition(h, "p", Requeue(h.partitions["p"], h.items, sel)), "p", [], []) == t;
    SingleRequest(t, 1);
    SingleBatch(t, 1, sel);
    DispatchIs(cfg, h, sel, t);
    assert StartBatch(t, "p", sel) == AfterFirst(k);
  }

  lemma FirstReady(k: Key)
    ensures Ready(CaseConfig(), QueuedFirst(k)) && Busy(CaseConfig(), AfterFirst(k))
  {
  }

  lemma ReachedNext(k: Key, second: nat, n: nat)
    ensures Reached(k, second, 0) == INIT
    ensures Reached(k, second, n + 1) == Turn(CaseConfig(), Reached(k, second, n), CaseEvent(k, second, n), 0, {})
  {
    hide Turn, CaseConfig, CaseEvent;
  }

  lemma FirstTurn(k: Key, second: nat)
    ensures Like(Reached(k, second, 1), AfterFirst(k))
  {
    hide Turn, Handle, Dispatch, Reached, Ready, Busy, CaseConfig, QueuedFirst, AfterFirst;
    ReachedNext(k, second, 0);
    FirstHandled(k, second);
    FirstDispatched(k);
    FirstReady(k);
    DispatchTurn(CaseConfig(), INIT, CaseEvent(k, second, 0), QueuedFirst(k), AfterFirst(k));
  }

  /** A submission to the partition that is within the limits is queued. */
  lemma SubmitQueues(cfg: Config, s: State, req: SubmitReq)
    requires !s.closing && req.part in s.partitions && !cfg.dedup && OverLimits(cfg, s.partitions[req.part], req).None?
    ensures Handle(cfg, s, Submit(req, None, 0)) == Enqueue(Arrive(s, req, None), req, 0)
  {
    hide Enqueue, OverLimits, FindEqual;
  }

  lemma SecondQueue(k: Key, second: nat)
    ensures var p := AfterFirst(k).partitions["p"];
            AfterSecond(k, second).partitions == map["p" := p.(pending := p.pending + [2],
              active := p.active[0 := Bucket(p.active, 0) + [2]], bytes := p.bytes + 0, weight := p.weight + second,
              waiters := p.waiters + 1, live := p.live + 1)]
  {
    assert [] + [2] == [2] && [1] + [2] == [1, 2];
    assert map[0 := [1]][0 := [1, 2]] == map[0 := [1, 2]];
  }

  lemma SecondHandled(k: Key, second: nat, s: State)
    requires second <= 10 && Like(s, AfterFirst(k))
    ensures Handle(CaseConfig(), s, CaseEvent(k, second, 1)) == AfterSecond(k, second).(timer := s.timer)
  {
    hide Handle, Enqueue;
    var req := Request(k, 2, second);
    SubmitQueues(CaseConfig(), s, req);
    hide CaseConfig, Bucket;
    SecondQueue(k, second);
    EnqueueIs(Arrive(s, req, None), req, AfterSecond(k, second).(timer := s.timer));
  }

  lemma SecondBusy(k: Key, second: nat, timer: Option<Time>)
    ensures Busy(CaseConfig(), AfterSecond(k, second).(timer := timer))
    ensures Busy(CaseConfig(), AfterThird(k).(timer := timer))
  {
  }

  lemma SecondTurn(k: Key, second: nat)
    requires second <= 10
    ensures Like(Reached(k, second, 2), AfterSecond(k, second))
  {
    hide Turn, Handle, Reached, Busy, CaseConfig, AfterFirst, AfterSecond;
    FirstTurn(k, second);
    ReachedNext(k, second, 1);
    var s := Reached(k, second, 1);
    SecondHandled(k, second, s);
    SecondBusy(k, second, s.timer);
    FullTurn(CaseConfig(), s, CaseEvent(k, second, 1), AfterSecond(k, second).(timer := s.timer));
  }

  lemma ThirdQueue(k: Key)
    ensures var p := AfterSecond(k, 9).partitions["p"];
            AfterThird(k).partitions == map["p" := p.(pending := p.pending + [3],
              active := p.active[0 := Bucket(p.active, 0) + [3]], bytes := p.bytes + 0, weight := p.weight + 1,
              waiters := p.waiters + 1, live := p.live + 1)]
  {
    assert [2] + [3] == [2, 3] && [1, 2] + [3] == [1, 2, 3];
    assert map[0 := [1, 2]][0 := [1, 2, 3]] == map[0 := [1, 2, 3]];
  }

  lemma ThirdHandled(k: Key, s: State)
    requires Like(s, AfterSecond(k, 9))
    ensures Handle(CaseConfig(), s, CaseEvent(k, 9, 2)) == AfterThird(k).(timer := s.timer)
  {
    hide Handle, Enqueue;
    var req := Request(k, 3, 1);
    SubmitQueues(CaseConfig(), s, req);
    hide CaseConfig, Bucket;
    ThirdQueue(k);
    EnqueueIs(Arrive(s, req, None), req, AfterThird(k).(timer := s.timer));
  }

  lemma ThirdTurn(k: Key)
    ensures Like(Reached(k, 9, 3), AfterThird(k))
  {
    hide Turn, Handle, Reached, Busy, CaseConfig, AfterSecond, AfterThird;
    SecondTurn(k, 9);
    ReachedNext(k, 9, 2);
    var s := Reached(k, 9, 2);
    ThirdHandled(k, s);
    SecondBusy(k, 9, s.timer);
    FullTurn(CaseConfig(), s, CaseEvent(k, 9, 2), AfterThird(k).(timer := s.timer));
  }

  /** Finishing one item that only its own caller waits for, map by map. */
  lemma SingleFinish(s: State, id: nat, d: Delivery, bucket: seq<nat>, r: State)
    requires "p" in s.partitions && id in s.items && s.items[id].waiters == [id] && s.items[id].hash == 0
    requires id in s.waiters && s.waiters[id].active && s.waiters[id].ch == []
    requires s.partitions["p"].active == map[0 := [id] + bucket] && bucket != []
    requires r == s.(partitions := r.partitions, items := s.items - {id}, waiters := r.waiters)
    requires r.partitions == s.partitions["p" := s.partitions["p"].(active := map[0 := bucket],
                                                                    live := s.partitions["p"].live - 1)]
    requires r.waiters == s.waiters[id := s.waiters[id].(active := false, ch := [d])]
    ensures FinishAll(s, "p", [id], [Some(d)]) == r
  {
    assert [id][..0] == [] && [Some(d)][..0] == [] && [] + [d] == [d];
    assert FinishAll(s, "p", [], []) == s;
    assert DeliverAll(s.waiters, [], d) == s.waiters;
    assert DeliverAll(s.waiters, [id], d) == r.waiters;
    assert ([id] + bucket)[1..] == bucket;
    assert RemoveFirst([id] + bucket, id) == bucket;
    assert RemoveActive(s.partitions["p"].active, 0, id) == map[0 := bucket];
  }

  /** A failed batch of one item leaves with nothing parked and its partition still in use. */
  lemma CompleteIs(cfg: Config, s: State, r: State)
    requires 1 in s.inflight && s.inflight[1].items == [1] && s.inflight[1].partition == "p"
    requires FinishAll(s.(inflight := s.inflight - {1}, activeProvider := s.activeProvider - 1), "p", [1],
                       [Some(Broken(GlobalFailure(7)))]) == r
    requires r.blocked == [] && "p" in r.partitions && r.partitions["p"].live > 0
    ensures Handle(cfg, s, Complete(1, Failed(7), 0)) == r
  {
    assert Results(Failed(7), [1]) == [Some(Broken(GlobalFailure(7)))];
    hide FinishAll, Results;
    assert MaybeRetire(r, "p") == r;
    assert r.(blocked := []) == r;
    assert RetryBlocked(cfg, r, 0) == r;
  }

  lemma FreedItems(k: Key)
    ensures AfterThird(k).items - {1} == Freed(k).items && AfterThird(k).inflight - {1} == map[]
  {
  }

  lemma FreedCallers(k: Key)
    ensures AfterThird(k).waiters[1 := Told(k, 1, Broken(GlobalFailure(7)))] == Freed(k).waiters
  {
  }

  lemma FreedQueue(k: Key)
    ensures AfterThird(k).partitions["p" := AfterThird(k).partitions["p"].(active := map[0 := [2, 3]], live := 2)] ==
            Freed(k).partitions
    ensures AfterThird(k).partitions["p"].active == map[0 := [1] + [2, 3]]
  {
    assert [1] + [2, 3] == [1, 2, 3];
  }

  lemma FourthHandled(k: Key, s: State)
    requires Like(s, AfterThird(k))
    ensures Handle(CaseConfig(), s, CaseEvent(k, 9, 3)) == Freed(k).(timer := s.timer)
  {
    hide Handle, FinishAll, CaseConfig;
    FreedItems(k);
    FreedCallers(k);
    FreedQueue(k);
    var r := Freed(k).(timer := s.timer);
    SingleFinish(s.(inflight := s.inflight - {1}, activeProvider := 0), 1, Broken(GlobalFailure(7)), [2, 3], r);
    CompleteIs(CaseConfig(), s, r);
  }

  lemma FreedSelection(k: Key)
    ensures Select(CaseConfig(), 4, Freed(k).items, [2, 3]) ==
            Selection([3], [2], [Some(Broken(ItemTooLarge))], [], 1, 0, 3)
    ensures Records(Freed(k).items, [2]) == [Queued(k, 2, 9)]
  {
    var cfg, items := CaseConfig(), Freed(k).items;
    var gone := NO_SELECTION.(gone := [2], results := [Some(Broken(ItemTooLarge))]);
    SelectNothing(cfg, items);
    assert SelectOne(cfg, 4, NO_SELECTION, Queued(k, 2, 9)) == gone;
    assert SelectOne(cfg, 4, gone, Queued(k, 3, 1)) == Selection([3], [2], [Some(Broken(ItemTooLarge))], [], 1, 0, 3);
    hide Select, Records, SelectOne, CaseConfig;
    SelectStep(cfg, items, [], 2);
    SelectStep(cfg, items, [2], 3);
    assert [] + [2] == [2] && [2] + [3] == [2, 3];
    assert [] + [items[2]] == [items[2]];
  }

  /** The state between giving up the oversized item and starting the batch. */
  function GivenUp(k: Key, timer: Option<Time>): (s: State) {
    Freed(k).(timer := timer, items := map[3 := Queued(k, 3, 1)],
    partitions := map["p" := Partition([], map[0 := [3]], 0, 10, 3, 1, [Queued(k, 2, 9)])],
    waiters := Drifted(k).waiters)
  }

  lemma GivenUpMaps(k: Key)
    ensures Freed(k).items - {2} == map[3 := Queued(k, 3, 1)]
    ensures Freed(k).waiters[2 := Told(k, 2, Broken(ItemTooLarge))] == Drifted(k).waiters
    ensures Freed(k).partitions["p"].active == map[0 := [2] + [3]]
  {
    assert [2] + [3] == [2, 3];
  }

  lemma CutQueue(k: Key)
    ensures Requeue(Freed(k).partitions["p"], Freed(k).items,
                    Selection([3], [2], [Some(Broken(ItemTooLarge))], [], 1, 0, 3)) ==
            Partition([], map[0 := [2, 3]], 0, 10, 3, 2, [Queued(k, 2, 9)])
  {
    FreedSelection(k);
    hide Select, Records;
    assert [] + [Queued(k, 2, 9)] == [Queued(k, 2, 9)];
  }

  lemma Teardown(k: Key, timer: Option<Time>)
    ensures var h, sel := Freed(k).(timer := timer), Selection([3], [2], [Some(Broken(ItemTooLarge))], [], 1, 0, 3);
            FinishAll(SetPartition(h, "p", Requeue(h.partitions["p"], h.items, sel)), "p", sel.gone, sel.results) ==
            GivenUp(k, timer)
  {
    hide Requeue, FinishAll;
    GivenUpMaps(k);
    CutQueue(k);
    var p := Partition([], map[0 := [2, 3]], 0, 10, 3, 2, [Queued(k, 2, 9)]);
    var cut := Freed(k).(timer := timer, partitions := Freed(k).partitions["p" := p]);
    SingleFinish(cut, 2, Broken(ItemTooLarge), [3], GivenUp(k, timer));
  }

  lemma StartMaps(k: Key)
    ensures MarkDispatched(map[3 := Queued(k, 3, 1)], [3], 2) == Drifted(k).items
  {
  }

  lemma StartIs(k: Key, timer: Option<Time>)
    ensures StartBatch(GivenUp(k, timer), "p", Selection([3], [2], [Some(Broken(ItemTooLarge))], [], 1, 0, 3)) ==
            Drifted(k).(timer := timer)
  {
    SingleBatch(GivenUp(k, timer), 3, Selection([3], [2], [Some(Broken(ItemTooLarge))], [], 1, 0, 3));
    StartMaps(k);
    hide SumActive, BatchDeadline, MarkDispatched;
  }

  lemma FreedDispatched(k: Key, timer: Option<Time>)
    ensures Dispatch(CaseConfig(), Freed(k).(timer := timer), "p") == Drifted(k).(timer := timer)
  {
    FreedSelection(k);
    hide Select, Records, FinishAll, RequestFor, RequestValid, Dispatch, StartBatch, Requeue;
    Teardown(k, timer);
    var sel := Selection([3], [2], [Some(Broken(ItemTooLarge))], [], 1, 0, 3);
    SingleRequest(GivenUp(k, timer), 3);
    DispatchIs(CaseConfig(), Freed(k).(timer := timer), sel, GivenUp(k, timer));
    StartIs(k, timer);
  }

  lemma FreedReady(k: Key, timer: Option<Time>)
    ensures Ready(CaseConfig(), Freed(k).(timer := timer)) && Busy(CaseConfig(), Drifted(k).(timer := timer))
  {
  }

  lemma FourthTurn(k: Key)
    ensures Like(Reached(k, 9, 4), Drifted(k))
  {
    hide Turn, Handle, Dispatch, Reached, Ready, Busy, CaseConfig, Freed, Drifted, AfterThird;
    ThirdTurn(k);
    ReachedNext(k, 9, 3);
    var s := Reached(k, 9, 3);
    FourthHandled(k, s);
    FreedDispatched(k, s.timer);
    FreedReady(k, s.timer);
    DispatchTurn(CaseConfig(), s, CaseEvent(k, 9, 3), Freed(k).(timer := s.timer), Drifted(k).(timer := s.timer));
  }

  /** The last caller of the run, refused. */
  function Refusal(k: Key): (c: Waiter) {
    Waiter("p", k, None, true, [Refused(QueueFull("weight"))], [], 0)
  }

  /** A submission over a limit is refused. */
  lemma SubmitRefused(cfg: Config, s: State, req: SubmitReq)
    requires !s.closing && req.part in s.partitions && !cfg.dedup && cfg.overflow == Reject
    requires OverLimits(cfg, s.partitions[req.part], req) == Some("weight")
    ensures Handle(cfg, s, Submit(req, None, 0)) ==
            s.(waiters := s.waiters[req.waiter := Waiter(req.part, req.key, None, true, [Refused(QueueFull("weight"))],
              [], 0)])
  {
    hide OverLimits, FindEqual;
    var t := Arrive(s, req, None);
    assert [] + [Refused(QueueFull("weight"))] == [Refused(QueueFull("weight"))];
    assert Handle(cfg, s, Submit(req, None, 0)) == Reply(t, req.waiter, Refused(QueueFull("weight")));
    hide Handle;
    var c := Waiter(req.part, req.key, None, true, [Refused(QueueFull("weight"))], [], 0);
    assert t.waiters[req.waiter := c] == s.waiters[req.waiter := c];
  }

  lemma FifthHandled(k: Key, s: State)
    requires Like(s, Drifted(k))
    ensures Handle(CaseConfig(), s, CaseEvent(k, 9, 4)) == s.(waiters := s.waiters[4 := Refusal(k)])
  {
    hide Handle;
    SubmitRefused(CaseConfig(), s, Request(k, 4, 2));
  }

  lemma StillBusy(k: Key, s: State)
    requires Like(s, Drifted(k))
    ensures Busy(CaseConfig(), s.(waiters := s.waiters[4 := Refusal(k)]))
  {
  }

  lemma FifthTurn(k: Key)
    ensures Like(Reached(k, 9, 5), Drifted(k).(waiters := Drifted(k).waiters[4 := Refusal(k)]))
  {
    hide Turn, Handle, Reached, Busy, CaseConfig, Drifted;
    FourthTurn(k);
    ReachedNext(k, 9, 4);
    var s := Reached(k, 9, 4);
    FifthHandled(k, s);
    StillBusy(k, s);
    FullTurn(CaseConfig(), s, CaseEvent(k, 9, 4), s.(waiters := s.waiters[4 := Refusal(k)]));
  }

  ghost function CaseStates(k: Key, second: nat, n: nat): (r: seq<State>) {
    seq(n + 1, i requires 0 <= i <= n => Reached(k, second, i))
  }

  function CaseSteps(k: Key, second: nat, n: nat): (r: seq<Step>) {
    seq(n, i requires 0 <= i < n => Loop(CaseEvent(k, second, i), 0, {}))
  }

  /** Every law is met: nothing is said of what callers receive. */
  ghost function AnyLaw(): (law: Law) {
    (p, k, d) => true
  }

  /**
   A run in which an item of weight 9 heads the queue when a slot is freed. It is given up, the item behind it is
   dispatched, the queue is empty, and its total still says 9; so a submission of weight 2 is refused by a
   limit of 10.
   */
  lemma OversizedDrifts(k: Key)
    ensures var states := CaseStates(k, 9, 5);
            && IsRun(CaseConfig(), AnyLaw(), states, CaseSteps(k, 9, 5))
            && "p" in states[4].partitions
            && var p := states[4].partitions["p"];
               && p.pending == [] && p.weight == 9 && p.failed == [Queued(k, 2, 9)] && !ExactTotals(states[4].items, p)
               && 4 in states[5].waiters && states[5].waiters[4].admit == [Refused(QueueFull("weight"))]
  {
    hide Reached, IsRun, CaseSteps;
    CaseRun(k, 9, 5);
    FourthTurn(k);
    FifthTurn(k);
  }

  /** The events above are a run of `n` turns. */
  lemma CaseRun(k: Key, second: nat, n: nat)
    requires (n <= 2 && second <= 10) || (n <= 5 && second == 9)
    ensures IsRun(CaseConfig(), AnyLaw(), CaseStates(k, second, n), CaseSteps(k, second, n))
  {
    hide Turn, Enabled, Reached, CaseConfig, CaseEvent;
    var states, steps := CaseStates(k, second, n), CaseSteps(k, second, n);
    ReachedNext(k, second, 0);
    forall i | 0 <= i < n
      ensures StepEnabled(CaseConfig(), AnyLaw(), states[i], steps[i])
      ensures states[i + 1] == Next(CaseConfig(), states[i], steps[i])
    {
      CaseEnabled(k, second, i);
      ReachedNext(k, second, i);
    }
  }

  lemma CaseEnabled(k: Key, second: nat, i: nat)
    requires (i < 2 && second <= 10) || (i < 5 && second == 9)
    ensures Enabled(CaseConfig(), AnyLaw(), Reached(k, second, i), CaseEvent(k, second, i))
  {
    hide Reached, Lawful;
    match i
    case 0 => ReachedNext(k, second, 0);
    case 1 => FirstTurn(k, second);
    case 2 => SecondTurn(k, second);
    case 3 =>
      ThirdTurn(k);
      NoLaw(Reached(k, second, 3));
    case 4 => FourthTurn(k);
  }

  lemma NoLaw(s: State)
    ensures Lawful(AnyLaw(), s, 1, Failed(7))
  {
  }

  // ---------------------------------------------------------------- an overdue queue

  lemma CaseValid()
    ensures ConfigValid(CaseConfig()) && LawOk(AnyLaw())
  {
  }

  lemma SlotDue(k: Key, timer: Option<Time>)
    ensures var cfg, s := CaseConfig(), AfterSecond(k, 1).(timer := timer);
            && s.activeProvider == MaxConcurrency(cfg, s) && "p" in s.partitions
            && DueAt(cfg, s, s.partitions["p"]) == Some(100)
  {
  }

  lemma SlotCore(k: Key)
    ensures Core(CaseConfig(), Reached(k, 1, 2), {})
  {
    hide ConfigValid, LawOk, IsRun, Core, Reached, CaseConfig, AnyLaw, CaseSteps;
    CaseValid();
    CaseRun(k, 1, 2);
    RunInvariant(CaseConfig(), AnyLaw(), CaseStates(k, 1, 2), CaseSteps(k, 1, 2), 2);
  }

  /**
   A run that ends with the one slot taken and a queue due at 100: from then on every pass arms the timer
   for the instant it runs at.
   */
  lemma SlotTakenRearms(k: Key, now: Time)
    requires now >= 100
    ensures IsRun(CaseConfig(), AnyLaw(), CaseStates(k, 1, 2), CaseSteps(k, 1, 2))
    ensures var cfg, s := CaseConfig(), CaseStates(k, 1, 2)[2];
            && s.activeProvider == MaxConcurrency(cfg, s) && "p" in s.partitions
            && DueAt(cfg, s, s.partitions["p"]) == Some(100)
            && Schedule(cfg, s, false, now).timer == Some(now)
  {
    hide IsRun, Core, Schedule, DueAt, Reached, CaseConfig, AfterSecond, CaseSteps;
    var s := Reached(k, 1, 2);
    CaseRun(k, 1, 2);
    SecondTurn(k, 1);
    SlotDue(k, s.timer);
    SlotCore(k);
    FullSlotsRearmAtOnce(CaseConfig(), s, now, "p");
  }

  // ---------------------------------------------------------------- a submission left behind

  /** Queues of one item that block when full, and no flush but on request. */
  function BlockConfig(): (cfg: Config) {
    CaseConfig().(limits := QueueLimits(1, 0, 0, 0, 0), overflow := Block, flushMode := Manual)
  }

  /** Two submissions, then the first caller leaves, then the coordinator is closed. */
  function ParkEvent(k: Key, n: nat): (e: Event) {
    match n
    case 0 => Submit(Request(k, 1, 1), None, 0)
    case 1 => Submit(Request(k, 2, 1), None, 0)
    case 2 => Cancel("p", 1)
    case _ => Control(Close, 1, 0)
  }

  ghost function ParkReached(k: Key, n: nat): (s: State) {
    if n == 0 then INIT else Turn(BlockConfig(), ParkReached(k, n - 1), ParkEvent(k, n - 1), 0, {})
  }

  lemma ParkNext(k: Key, n: nat)
    ensures ParkReached(k, 0) == INIT
    ensures ParkReached(k, n + 1) == Turn(BlockConfig(), ParkReached(k, n), ParkEvent(k, n), 0, {})
  {
    hide Turn, BlockConfig, ParkEvent;
  }

  function OneQueued(k: Key): (s: State) {
    INIT.(partitions := map["p" := Partition([1], map[0 := [1]], 0, 1, 1, 1, [])], items := map[1 := Queued(k, 1, 1)],
    waiters := map[1 := Caller(k, 1)], submitSeq := 1, requestSeq := 1)
  }

  function Waits(k: Key): (c: Waiter) {
    Waiter("p", k, None, true, [], [], 0)
  }

  function OneParked(k: Key): (s: State) {
    OneQueued(k).(waiters := map[1 := Caller(k, 1), 2 := Waits(k)], blocked := [Request(k, 2, 1)])
  }

  /** Room again, and nothing in flight that could complete. */
  function Stranded(k: Key): (s: State) {
    OneParked(k).(partitions := map[], items := map[],
      waiters := map[1 := Caller(k, 1).(active := false), 2 := Waits(k)])
  }

  /** A pass over a queue that is not due changes nothing. */
  lemma IdleTurn(cfg: Config, s: State, e: Event, h: State)
    requires Handle(cfg, s, e) == h && !e.EngineCancel? && h.barriers == [] && !h.closing && h.partitions.Keys == {"p"}
    requires h.partitions["p"].live > 0 && h.partitions["p"].pending != []
    requires var id := h.partitions["p"].pending[0]; id in h.items && h.items[id].activeWaiters != 0
    requires ShouldDispatch(cfg, h, h.partitions["p"], false, 0).None?
    ensures Like(Turn(cfg, s, e, 0, {}), h)
  {
    hide Handle, Schedule, Turn, Dispatch, ShouldDispatch;
    assert Prune(h, "p") == h;
    assert DispatchLoop(cfg, h, "p", false, 0) == h;
    OnePass(cfg, h, h);
    TurnIs(cfg, s, e, h, h);
  }

  lemma EmptyPass(cfg: Config, h: State, force: bool)
    requires h.partitions == map[]
    ensures Schedule(cfg, h, force, 0) == h.(timer := None)
  {
    assert h.partitions.Keys == {};
    assert SortedKeys({}) == [];
  }

  lemma ParkFirst(k: Key)
    ensures Like(ParkReached(k, 1), OneQueued(k))
  {
    hide Turn, ParkReached;
    ParkNext(k, 0);
    OneHandled(k);
    hide Handle;
    IdleTurn(BlockConfig(), INIT, ParkEvent(k, 0), OneQueued(k));
  }

  lemma OneHandled(k: Key)
    ensures Handle(BlockConfig(), INIT, ParkEvent(k, 0)) == OneQueued(k)
  {
    var req := Request(k, 1, 1);
    var t := SetPartition(Arrive(INIT, req, None), "p", FRESH_PARTITION);
    assert OverLimits(BlockConfig(), FRESH_PARTITION, req).None?;
    assert Place(BlockConfig(), t, req, 0) == Enqueue(t, req, 0);
    assert [] + [1] == [1] && map[][0 := [1]] == map[0 := [1]];
    EnqueueIs(t, req, OneQueued(k));
  }

  lemma SubmitParks(cfg: Config, s: State, req: SubmitReq)
    requires !s.closing && req.part in s.partitions && !cfg.dedup && cfg.overflow == Block
    requires OverLimits(cfg, s.partitions[req.part], req).Some?
    ensures Handle(cfg, s, Submit(req, None, 0)) == Arrive(s, req, None).(blocked := s.blocked + [req])
  {
    hide OverLimits, FindEqual;
  }

  lemma ParkSecond(k: Key)
    ensures Like(ParkReached(k, 2), OneParked(k))
  {
    hide Turn, ParkReached, Handle;
    ParkFirst(k);
    ParkNext(k, 1);
    var s := ParkReached(k, 1);
    SubmitParks(BlockConfig(), s, Request(k, 2, 1));
    assert [] + [Request(k, 2, 1)] == [Request(k, 2, 1)];
    assert Arrive(s, Request(k, 2, 1), None).waiters == OneParked(k).waiters;
    IdleTurn(BlockConfig(), s, ParkEvent(k, 1), OneParked(k).(timer := s.timer));
  }

  lemma CancelDrops(k: Key, s: State)
    requires Like(s, OneParked(k))
    ensures var s1 := Detach(s, "p", 1);
            && s1.items.Keys == {1} && s1.items[1].activeWaiters == 0 && !s1.items[1].dispatched
            && RemovePending(s1, "p", 1) == Stranded(k).(timer := s.timer)
  {
    var s1 := Detach(s, "p", 1);
    assert [1][1..] == [] && RemoveFirst([1], 1) == [] && RemoveActive(map[0 := [1]], 0, 1) == map[];
    var t := SetPartition(s1, "p", s1.partitions["p"].(pending := [], bytes := 0, weight := 0));
    assert DropItem(t, "p", 1).partitions["p"].live == 0;
    assert MaybeRetire(DropItem(t, "p", 1), "p").partitions == map[];
    assert s1.items - {1} == map[];
  }

  lemma CancelHandled(k: Key, s: State)
    requires Like(s, OneParked(k))
    ensures Handle(BlockConfig(), s, ParkEvent(k, 2)) == Stranded(k).(timer := s.timer)
  {
    CancelDrops(k, s);
    hide RemovePending, Detach;
  }

  lemma ParkThird(k: Key)
    ensures Like(ParkReached(k, 3), Stranded(k))
  {
    hide Turn, ParkReached;
    ParkSecond(k);
    ParkNext(k, 2);
    var s := ParkReached(k, 2);
    CancelHandled(k, s);
    hide Handle;
    var h := Stranded(k).(timer := s.timer);
    EmptyPass(BlockConfig(), h, false);
    hide Schedule;
    TurnIs(BlockConfig(), s, ParkEvent(k, 2), h, Stranded(k));
  }

  /** Nothing is queued or in flight. */
  ghost predicate Empty(s: State) {
    s.partitions == map[] && s.inflight == map[] && s.activeProvider == 0
  }

  lemma EmptyBarrier(s: State, b: Barrier)
    requires Empty(s) && s.barriers == [b]
    ensures CompleteBarriers(s, {}) == s.(barriers := [], signals := Signalled(s.signals, b.id, Done))
  {
    hide Signalled;
    assert BarrierSatisfied(s, b) && [b][..0] == [];
    assert TryBarriers(s, [], {}) == ([], s.signals);
  }

  lemma EmptyControl(cfg: Config, s: State)
    requires Empty(s) && s.barriers == []
    ensures var h := Handle(cfg, s, Control(Close, 1, 0));
            && Empty(h) && h.closing && h.barriers == [Barrier(1, Close, s.submitSeq)]
            && h.blocked == s.blocked && h.waiters == s.waiters
  {
    hide Schedule;
    EmptyPass(cfg, s.(closing := true), true);
  }

  /** Closing an idle coordinator answers the barrier and stops the loop. */
  lemma CloseTurn(cfg: Config, s: State)
    requires Empty(s) && s.barriers == []
    ensures var s' := Turn(cfg, s, Control(Close, 1, 0), 0, {});
            s'.stopped && s'.blocked == s.blocked && s'.waiters == s.waiters
  {
    hide Handle, Schedule, CompleteBarriers, SignalAll;
    var h := Handle(cfg, s, Control(Close, 1, 0));
    EmptyControl(cfg, s);
    EmptyPass(cfg, h, false);
    EmptyBarrier(h.(timer := None), Barrier(1, Close, s.submitSeq));
  }

  ghost function ParkStates(k: Key): (r: seq<State>) {
    seq(5, i requires 0 <= i <= 4 => ParkReached(k, i))
  }

  function ParkSteps(k: Key): (r: seq<Step>) {
    seq(4, i requires 0 <= i < 4 => Loop(ParkEvent(k, i), 0, {}))
  }

  lemma ParkEnabled(k: Key, i: nat)
    requires i < 4
    ensures Enabled(BlockConfig(), AnyLaw(), ParkReached(k, i), ParkEvent(k, i))
  {
    hide ParkReached;
    match i
    case 0 => ParkNext(k, 0);
    case 1 => ParkFirst(k);
    case 2 => ParkSecond(k);
    case 3 => ParkThird(k);
  }

  lemma ParkRun(k: Key)
    ensures IsRun(BlockConfig(), AnyLaw(), ParkStates(k), ParkSteps(k))
  {
    hide Turn, Enabled, ParkReached, BlockConfig, ParkEvent;
    var states, steps := ParkStates(k), ParkSteps(k);
    ParkNext(k, 0);
    forall i | 0 <= i < 4
      ensures StepEnabled(BlockConfig(), AnyLaw(), states[i], steps[i])
      ensures states[i + 1] == Next(BlockConfig(), states[i], steps[i])
    {
      ParkEnabled(k, i);
      ParkNext(k, i);
    }
  }

  /**
   A run in which a submission is parked behind a full queue, the queue is emptied by a cancellation and its
   partition retired, and the submission is not taken up. Nothing is in flight, so the coordinator counts as
   drained; closing it then stops the loop with the caller neither answered nor refused.
   */
  lemma ParkedLeftBehind(k: Key)
    ensures IsRun(BlockConfig(), AnyLaw(), ParkStates(k), ParkSteps(k))
    ensures var s := ParkStates(k)[3];
            && s.partitions == map[] && s.inflight == map[] && Drained(s) && s.blocked == [Request(k, 2, 1)]
    ensures var s := ParkStates(k)[4];
            s.stopped && s.blocked == [Request(k, 2, 1)] && 2 in s.waiters && s.waiters[2] == Waits(k)
  {
    hide Turn, ParkReached, IsRun, ParkSteps;
    ParkRun(k);
    ParkThird(k);
    ParkNext(k, 3);
    CloseTurn(BlockConfig(), ParkReached(k, 3));
  }

  // ---------------------------------------------------------------- cancellation with deduplication

  /** A batch of one item that two callers share. */
  function Coalesced(k: Key): (s: State) {
    INIT.(partitions := map["p" := Partition([], map[0 := [1]], 0, 0, 2, 1, [])],
    items := map[1 := Queued(k, 1, 1).(waiters := [1, 2], activeWaiters := 2, dispatched := true, batchID := 1)],
    waiters := map[1 := Caller(k, 1), 2 := Caller(k, 1)], inflight := map[1 := Batch([1], 2, "p", 1, None, false)],
    activeProvider := 1, batchSeq := 1, submitSeq := 1, requestSeq := 1)
  }

  lemma CoalescedTotals(k: Key)
    ensures CountActive(Coalesced(k).waiters, [1, 2]) == 2
    ensures BatchLimits(CaseConfig().(dedup := true), Coalesced(k).items, Coalesced(k).inflight[1])
  {
    assert [1, 2][..1] == [1] && [1][..0] == [];
    assert CountActive(Coalesced(k).waiters, [1]) == 1;
  }

  lemma CoalescedQueue(k: Key)
    ensures QueueOk(CaseConfig().(dedup := true), Coalesced(k), "p")
  {
    assert LiveIds(Coalesced(k).items, "p") == {1};
  }

  lemma CoalescedCore(k: Key)
    ensures Core(CaseConfig().(dedup := true), Coalesced(k), {})
  {
    CoalescedTotals(k);
    hide BatchLimits, QueueOk;
    CoalescedQueue(k);
    var cfg, s := CaseConfig().(dedup := true), Coalesced(k);
    assert BatchOk(cfg, s, {}, 1);
    assert ItemOk(cfg, s, {}, 1);
  }

  /** Both callers leave, and the provider call is not cancelled. */
  lemma CoalescedOutlivesCallers(k: Key)
    ensures Core(CaseConfig().(dedup := true), Coalesced(k), {})
    ensures var s' := HandleCancel(HandleCancel(Coalesced(k), "p", 1), "p", 2);
            && s'.waiters.Keys == {1, 2} && !s'.waiters[1].active && !s'.waiters[2].active
            && 1 in s'.inflight && !s'.inflight[1].cancelled
  {
    CoalescedCore(k);
    hide Core;
    var s1 := HandleCancel(Coalesced(k), "p", 1);
    assert s1 == Detach(Coalesced(k), "p", 1);
    assert HandleCancel(s1, "p", 2) == Abandon(Detach(s1, "p", 2), 1);
  }

  /** The same batch with its first caller only. */
  function Lone(k: Key): (s: State) {
    var s := Coalesced(k);
    s.(partitions := map["p" := s.partitions["p"].(waiters := 1)],
    items := map[1 := s.items[1].(waiters := [1], activeWaiters := 1)],
    waiters := map[1 := Caller(k, 1)], inflight := map[1 := s.inflight[1].(activeWaiters := 1)])
  }

  lemma LoneQueue(k: Key)
    ensures QueueOk(CaseConfig().(dedup := true), Lone(k), "p")
  {
    assert LiveIds(Lone(k).items, "p") == {1};
  }

  lemma LoneTotals(k: Key)
    ensures CountActive(Lone(k).waiters, [1]) == 1
    ensures BatchLimits(CaseConfig().(dedup := true), Lone(k).items, Lone(k).inflight[1])
  {
    assert [1][..0] == [];
  }

  lemma LoneCore(k: Key)
    ensures Core(CaseConfig().(dedup := true), Lone(k), {})
  {
    LoneTotals(k);
    hide BatchLimits, QueueOk;
    LoneQueue(k);
    var cfg, s := CaseConfig().(dedup := true), Lone(k);
    assert MinAttained(s.items, s.inflight[1]) by { assert 1 in s.inflight[1].items; }
    hide MinAttained;
    assert BatchOk(cfg, s, {}, 1);
    assert ItemOk(cfg, s, {}, 1);
  }

  /** The caller leaves, the provider call is cancelled, and a new caller with an equal key still joins it. */
  lemma JoinsCancelledBatch(k: Key, deadline: Option<Time>, at: Time)
    ensures Core(CaseConfig().(dedup := true), Lone(k), {})
    ensures var req := SubmitReq("p", k, 0, 1, 0, 2);
            var s := HandleCancel(Lone(k), "p", 1);
            var s' := HandleSubmit(CaseConfig().(dedup := true), Arrive(s, req, deadline), req, at);
            && s.inflight.Keys == {1} && s.inflight[1].cancelled && s'.inflight == s.inflight
            && 2 in s'.waiters && s'.waiters[2].active && s'.waiters[2].admit == [Admitted] && s'.waiters[2].home == 1
  {
    LoneCore(k);
    hide Core;
    var cfg, req := CaseConfig().(dedup := true), SubmitReq("p", k, 0, 1, 0, 2);
    var s := HandleCancel(Lone(k), "p", 1);
    assert s == Abandon(Detach(Lone(k), "p", 1), 1);
    var t := Arrive(s, req, deadline);
    assert t.partitions["p"].active == map[0 := [1]] && 1 in t.items && [1][..0] == [];
    assert FindEqual(cfg, t.items, [], k).None?;
    assert FindEqual(cfg, t.items, [1], k) == Some(1);
    assert HandleSubmit(cfg, t, req, at) == JoinItem(t, req, 1);
  }
}
