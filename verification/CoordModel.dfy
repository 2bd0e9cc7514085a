/**
 The coordinator of one bound operation as a state machine.

 The coordinator owns a partitioned set of queues, the in-flight batches, parked submissions and
 barriers, and handles one event at a time. Go's references to items and callers are modelled by ids
 into the maps `items` and `waiters`; `items` holds exactly the items the coordinator still
 references. The functions below give the effect of each handler on a `State` value; the class in
 Coordinator.dfy carries them out step by step on mutable fields.

 Every fold runs over a list front to back and is defined on prefixes.
 */
module CoordModel {
  import opened Seqs
  import opened Wire
  import opened StringOrder

  type Time = int

  // ---------------------------------------------------------------- configuration

  datatype FlushMode = Immediate | FixedWindow | DeadlineAware | Manual

  datatype OverflowPolicy = Reject | Fallback | Block

  datatype QueueLimits = QueueLimits(maxItems: int, maxWaiters: int, maxBytes: int, maxWeight: int, maxPartitions: int)

  datatype Config = Config(
    equal: (Key, Key) -> bool,
    hash: Key -> nat,
    limits: QueueLimits,
    overflow: OverflowPolicy,
    flushMode: FlushMode,
    maxBatchSize: int,
    maxBatchWeight: int,
    maxBatchBytes: int,
    maxWait: int,
    deadlineMargin: int,
    maxConcurrency: int,
    dedup: bool)

  /** The key strategy contract and the two floors that binding enforces. */
  ghost predicate ConfigValid(cfg: Config) {
    && cfg.maxConcurrency >= 1
    && cfg.maxBatchSize >= 1
    && (forall a: Key :: cfg.equal(a, a))
    && (forall a: Key, b: Key :: cfg.equal(a, b) ==> cfg.equal(b, a) && cfg.hash(a) == cfg.hash(b))
    && (forall a: Key, b: Key, c: Key :: cfg.equal(a, b) && cfg.equal(b, c) ==> cfg.equal(a, c))
  }

  datatype Settings = Settings(maxWait: int, maxBatchSize: int, maxConcurrency: int)

  function ClampInt(v: int, lo: int, hi: int): (r: int) {
    var w := if v < lo then lo else v;
    if hi > 0 && w > hi then hi else w
  }

  /** The clamped snapshot installed for requested adaptive settings. */
  function Clamped(cfg: Config, want: Settings): (r: Settings) {
    Settings(
      if want.maxWait > 0 && want.maxWait < cfg.maxWait then want.maxWait
      else if want.maxWait == 0 then cfg.maxWait
      else ClampInt(want.maxWait, 0, cfg.maxWait),
      if want.maxBatchSize > 0 then ClampInt(want.maxBatchSize, 1, cfg.maxBatchSize) else cfg.maxBatchSize,
      if want.maxConcurrency > 0 then ClampInt(want.maxConcurrency, 1, cfg.maxConcurrency) else cfg.maxConcurrency)
  }

  // ---------------------------------------------------------------- state

  datatype Outcome = Found(value: Value) | Missing | Failure(err: int)

  datatype Fault =
    | EngineClosing
    | EngineClosed
    | ItemTooLarge
    | QueueFull(category: string)
    | PartitionLimit
    | ContractViolation
    | ProviderPanic
    | GlobalFailure(err: int)

  /** What is sent on a caller's one-slot channel: the provider's answer, or a runtime error. */
  datatype Delivery = Answer(outcome: Outcome) | Broken(fault: Fault)

  /** What is sent on a submission's reply channel. */
  datatype Admission = Admitted | RunFallback | Refused(fault: Fault)

  /**
   One caller. `admit` and `ch` are the contents of its two channels; `part`, `key` and `home`
   record what it asked for and which item it was attached to.
   */
  datatype Waiter = Waiter(
    part: string, key: Key, deadline: Option<Time>,
    active: bool, admit: seq<Admission>, ch: seq<Delivery>, home: nat)

  /** One unique queued request, possibly shared by several callers. `part` records its partition. */
  datatype Item = Item(
    id: nat, order: nat, part: string, key: Key, hash: nat, weight: nat, bytes: nat, enqueue: Time,
    waiters: seq<nat>, activeWaiters: int, dispatched: bool, batchID: nat)

  /**
   One partition. `failed` is an auxiliary record that no handler reads: the items its selection
   passes gave up since it was created.
   */
  datatype Partition = Partition(
    pending: seq<nat>, active: map<nat, seq<nat>>, bytes: int, weight: int, waiters: int, live: int,
    failed: seq<Item>)

  const FRESH_PARTITION := Partition([], map[], 0, 0, 0, 0, [])

  /** A dispatched batch; `cancelled` says whether its provider context was cancelled. */
  datatype Batch = Batch(
    items: seq<nat>, activeWaiters: int, partition: string, minSeq: nat,
    deadline: Option<Time>, cancelled: bool)

  datatype SubmitReq = SubmitReq(part: string, key: Key, hash: nat, weight: nat, bytes: nat, waiter: nat)

  datatype ControlKind = Flush | Drain | Close

  datatype Barrier = Barrier(id: nat, kind: ControlKind, upTo: nat)

  datatype BarrierReply = Done | TimedOut(kind: ControlKind) | ShutDown

  /** A barrier's reply channel, with the admission number the barrier covers. */
  datatype Signal = Signal(kind: ControlKind, upTo: nat, sent: seq<BarrierReply>)

  datatype State = State(
    partitions: map<string, Partition>,
    items: map<nat, Item>,
    waiters: map<nat, Waiter>,
    inflight: map<nat, Batch>,
    blocked: seq<SubmitReq>,
    barriers: seq<Barrier>,
    signals: map<nat, Signal>,
    activeProvider: int,
    batchSeq: nat,
    submitSeq: nat,
    requestSeq: nat,
    closing: bool,
    engineDone: bool,
    stopped: bool,
    timer: Option<Time>,
    dyn: Option<Settings>)

  const INIT := State(map[], map[], map[], map[], [], [], map[], 0, 0, 0, 0, false, false, false, None, None)

  function MaxWait(cfg: Config, s: State): (r: int) {
    if s.dyn.Some? then s.dyn.value.maxWait else cfg.maxWait
  }

  function MaxBatchSize(cfg: Config, s: State): (r: int) {
    if s.dyn.Some? then s.dyn.value.maxBatchSize else cfg.maxBatchSize
  }

  function MaxConcurrency(cfg: Config, s: State): (r: int) {
    if s.dyn.Some? then s.dyn.value.maxConcurrency else cfg.maxConcurrency
  }

  // ---------------------------------------------------------------- callers

  function Deliver(ws: map<nat, Waiter>, w: nat, r: Delivery): (ws': map<nat, Waiter>) {
    if w in ws && ws[w].active then ws[w := ws[w].(active := false, ch := ws[w].ch + [r])] else ws
  }

  function DeliverAll(ws: map<nat, Waiter>, ids: seq<nat>, r: Delivery): (ws': map<nat, Waiter>) {
    if ids == [] then ws
    else Deliver(DeliverAll(ws, ids[..|ids| - 1], r), ids[|ids| - 1], r)
  }

  function Reply(s: State, w: nat, a: Admission): (s': State) {
    if w in s.waiters then s.(waiters := s.waiters[w := s.waiters[w].(admit := s.waiters[w].admit + [a])]) else s
  }

  function CountActive(ws: map<nat, Waiter>, ids: seq<nat>): (n: nat) {
    if ids == [] then 0
    else CountActive(ws, ids[..|ids| - 1]) + if ids[|ids| - 1] in ws && ws[ids[|ids| - 1]].active then 1 else 0
  }

  function Earlier(a: Option<Time>, b: Option<Time>): (r: Option<Time>) {
    if a.None? then b else if b.Some? && b.value < a.value then b else a
  }

  /** The earliest deadline among the active callers `ids`. */
  function EarliestDeadline(ws: map<nat, Waiter>, ids: seq<nat>): (r: Option<Time>) {
    if ids == [] then None
    else
      var w := ids[|ids| - 1];
      Earlier(EarliestDeadline(ws, ids[..|ids| - 1]), if w in ws && ws[w].active then ws[w].deadline else None)
  }

  /** Go's zero time, from which a latest-deadline search starts. */
  const ZERO_TIME: Time := 0

  /** A running latest deadline: whether any caller was seen, whether all had one, the latest so far. */
  datatype Latest = Latest(any: bool, all: bool, best: Time)

  function LatestStep(acc: Latest, w: Waiter): (r: Latest) {
    if !w.active then acc
    else if w.deadline.None? then Latest(true, false, acc.best)
    else Latest(true, acc.all, if w.deadline.value > acc.best then w.deadline.value else acc.best)
  }

  function LatestOf(ws: map<nat, Waiter>, ids: seq<nat>): (r: Latest) {
    if ids == [] then Latest(false, true, ZERO_TIME)
    else
      var acc := LatestOf(ws, ids[..|ids| - 1]);
      if ids[|ids| - 1] in ws then LatestStep(acc, ws[ids[|ids| - 1]]) else acc
  }

  function BatchLatestStep(acc: Latest, it: Latest): (r: Latest) {
    if !(it.any && it.all) then Latest(acc.any, false, acc.best)
    else Latest(true, acc.all, if it.best > acc.best then it.best else acc.best)
  }

  function BatchLatest(s: State, ids: seq<nat>): (r: Latest) {
    if ids == [] then Latest(false, true, ZERO_TIME)
    else
      var acc := BatchLatest(s, ids[..|ids| - 1]);
      if ids[|ids| - 1] in s.items then BatchLatestStep(acc, LatestOf(s.waiters, s.items[ids[|ids| - 1]].waiters))
        else acc
  }

  /** The deadline put on a provider context: the latest one, and only if every caller has one. */
  function BatchDeadline(s: State, ids: seq<nat>): (r: Option<Time>) {
    var l := BatchLatest(s, ids);
    if l.any && l.all then Some(l.best) else None
  }

  // ---------------------------------------------------------------- index, retirement, teardown

  function Bucket(active: map<nat, seq<nat>>, h: nat): (r: seq<nat>) {
    if h in active then active[h] else []
  }

  function RemoveActive(active: map<nat, seq<nat>>, h: nat, id: nat): (r: map<nat, seq<nat>>) {
    var bucket := RemoveFirst(Bucket(active, h), id);
    if bucket == [] then active - {h} else active[h := bucket]
  }

  function SetPartition(s: State, pk: string, p: Partition): (s': State) {
    s.(partitions := s.partitions[pk := p])
  }

  /** Takes an item out of the index and forgets it. */
  function DropItem(s: State, pk: string, id: nat): (s': State) {
    if id !in s.items || pk !in s.partitions then s
    else
      var p := s.partitions[pk];
      SetPartition(s, pk, p.(active := RemoveActive(p.active, s.items[id].hash, id), live := p.live - 1))
      .(items := s.items - {id})
  }

  /** Delivers `r`, if any, to every active caller of an item, then drops the item. */
  function FinishItem(s: State, pk: string, id: nat, r: Option<Delivery>): (s': State) {
    if id !in s.items then s
    else if r.None? then DropItem(s, pk, id)
    else DropItem(s.(waiters := DeliverAll(s.waiters, s.items[id].waiters, r.value)), pk, id)
  }

  function FinishAll(s: State, pk: string, ids: seq<nat>, rs: seq<Option<Delivery>>): (s': State)
    requires |ids| == |rs|
  {
    if ids == [] then s
    else FinishItem(FinishAll(s, pk, ids[..|ids| - 1], rs[..|rs| - 1]), pk, ids[|ids| - 1], rs[|rs| - 1])
  }

  function MaybeRetire(s: State, pk: string): (s': State) {
    if pk in s.partitions && s.partitions[pk].live == 0 && s.partitions[pk].active == map[]
    then s.(partitions := s.partitions - {pk})
    else s
  }

  /** Removes an undispatched item that lost its last caller. */
  function RemovePending(s: State, pk: string, id: nat): (s': State) {
    if pk !in s.partitions || id !in s.items then s
    else
      var p := s.partitions[pk];
      var it := s.items[id];
      var s1 := SetPartition(s, pk,
        p.(pending := RemoveFirst(p.pending, id), bytes := p.bytes - it.bytes, weight := p.weight - it.weight));
      MaybeRetire(DropItem(s1, pk, id), pk)
  }

  // ---------------------------------------------------------------- submissions

  /** The first item of a bucket whose key equals `key`. */
  function FindEqual(cfg: Config, items: map<nat, Item>, bucket: seq<nat>, key: Key): (r: Option<nat>) {
    if bucket == [] then None
    else
      var before := FindEqual(cfg, items, bucket[..|bucket| - 1], key);
      var id := bucket[|bucket| - 1];
      if before.Some? then before
      else if id in items && cfg.equal(items[id].key, key) then Some(id)
      else None
  }

  function OverLimits(cfg: Config, p: Partition, req: SubmitReq): (r: Option<string>) {
    var l := cfg.limits;
    if l.maxItems > 0 && |p.pending| + 1 > l.maxItems then Some("items")
    else if l.maxWaiters > 0 && p.waiters + 1 > l.maxWaiters then Some("waiters")
    else if l.maxBytes > 0 && p.bytes + req.bytes > l.maxBytes then Some("bytes")
    else if l.maxWeight > 0 && p.weight + req.weight > l.maxWeight then Some("weight")
    else None
  }

  function Overflow(cfg: Config, s: State, req: SubmitReq, fault: Fault): (s': State) {
    match cfg.overflow
    case Fallback => Reply(s, req.waiter, RunFallback)
    case Block => s.(blocked := s.blocked + [req])
    case Reject => Reply(s, req.waiter, Refused(fault))
  }

  function JoinItem(s: State, req: SubmitReq, id: nat): (s': State)
    requires req.part in s.partitions && id in s.items && req.waiter in s.waiters
  {
    var it := s.items[id];
    var p := s.partitions[req.part];
    Reply(
      SetPartition(s, req.part, p.(waiters := p.waiters + 1))
      .(items := s.items[id := it.(waiters := it.waiters + [req.waiter], activeWaiters := it.activeWaiters + 1)],
      waiters := s.waiters[req.waiter := s.waiters[req.waiter].(home := id)]),
      req.waiter, Admitted)
  }

  function NewItem(s: State, req: SubmitReq, at: Time): (it: Item) {
    Item(s.requestSeq + 1, s.submitSeq + 1, req.part, req.key, req.hash, req.weight, req.bytes, at,
         [req.waiter], 1, false, 0)
  }

  function Enqueue(s: State, req: SubmitReq, at: Time): (s': State)
    requires req.part in s.partitions && req.waiter in s.waiters
  {
    var it := NewItem(s, req, at);
    var p := s.partitions[req.part];
    Reply(
      SetPartition(s, req.part, p.(
        pending := p.pending + [it.id],
        active := p.active[req.hash := Bucket(p.active, req.hash) + [it.id]],
        bytes := p.bytes + req.bytes, weight := p.weight + req.weight,
        waiters := p.waiters + 1, live := p.live + 1))
      .(items := s.items[it.id := it],
      waiters := s.waiters[req.waiter := s.waiters[req.waiter].(home := it.id)],
      requestSeq := s.requestSeq + 1, submitSeq := s.submitSeq + 1),
      req.waiter, Admitted)
  }

  /** Joins an equal live item, or queues a new one within the limits. */
  function Place(cfg: Config, s: State, req: SubmitReq, at: Time): (s': State)
    requires req.part in s.partitions && req.waiter in s.waiters
  {
    var p := s.partitions[req.part];
    var equal := if cfg.dedup then FindEqual(cfg, s.items, Bucket(p.active, req.hash), req.key) else None;
    if equal.Some? && equal.value in s.items then JoinItem(s, req, equal.value)
    else
      var over := OverLimits(cfg, p, req);
      if over.Some? then Overflow(cfg, s, req, QueueFull(over.value))
      else Enqueue(s, req, at)
  }

  function HandleSubmit(cfg: Config, s: State, req: SubmitReq, at: Time): (s': State) {
    if req.waiter !in s.waiters then s
    else if s.closing then Reply(s, req.waiter, Refused(EngineClosing))
    else if req.part in s.partitions then Place(cfg, s, req, at)
    else if cfg.limits.maxPartitions > 0 && |s.partitions| >= cfg.limits.maxPartitions
    then Overflow(cfg, s, req, PartitionLimit)
    else Place(cfg, SetPartition(s, req.part, FRESH_PARTITION), req, at)
  }

  function Resubmit(cfg: Config, s: State, reqs: seq<SubmitReq>, at: Time): (s': State) {
    if reqs == [] then s
    else HandleSubmit(cfg, Resubmit(cfg, s, reqs[..|reqs| - 1], at), reqs[|reqs| - 1], at)
  }

  function RetryBlocked(cfg: Config, s: State, at: Time): (s': State) {
    Resubmit(cfg, s.(blocked := []), s.blocked, at)
  }

  // ---------------------------------------------------------------- cancellation

  /** Withdraws the first parked submission of caller `w`. */
  function Unpark(blocked: seq<SubmitReq>, w: nat): (r: seq<SubmitReq>) {
    if blocked == [] then []
    else if blocked[0].waiter == w then blocked[1..]
    else [blocked[0]] + Unpark(blocked[1..], w)
  }

  /** Caller `w` is active and attached to a live item of partition `pk`. */
  predicate Attached(s: State, pk: string, w: nat) {
    && w in s.waiters && s.waiters[w].active
    && s.waiters[w].home in s.items
    && s.items[s.waiters[w].home].part == pk
    && w in s.items[s.waiters[w].home].waiters
  }

  /** The caller stops counting towards its item. */
  function Detach(s: State, pk: string, w: nat): (s': State)
    requires Attached(s, pk, w) && pk in s.partitions
  {
    var id := s.waiters[w].home;
    var p := s.partitions[pk];
    SetPartition(s, pk, p.(waiters := p.waiters - 1))
    .(waiters := s.waiters[w := s.waiters[w].(active := false)],
    items := s.items[id := s.items[id].(activeWaiters := s.items[id].activeWaiters - 1)])
  }

  /** A dispatched item lost its last caller: its batch is cancelled with the last such item. */
  function Abandon(s: State, batch: nat): (s': State) {
    if batch !in s.inflight then s
    else
      var b := s.inflight[batch];
      s.(inflight := s.inflight[batch := b.(
        activeWaiters := b.activeWaiters - 1,
        cancelled := b.cancelled || b.activeWaiters - 1 == 0)])
  }

  function HandleCancel(s: State, pk: string, w: nat): (s': State) {
    if !Attached(s, pk, w) || pk !in s.partitions then s
    else
      var id := s.waiters[w].home;
      var s1 := Detach(s, pk, w);
      if s1.items[id].activeWaiters != 0 then s1
      else if !s1.items[id].dispatched then RemovePending(s1, pk, id)
      else Abandon(s1, s1.items[id].batchID)
  }

  // ---------------------------------------------------------------- dispatch

  datatype FlushReason = FlushManual | FlushSize | FlushWeight | FlushBytes | FlushWait | FlushDeadline

  /** The earliest deadline of an active caller among the pending items. */
  function PendingDeadline(s: State, ids: seq<nat>): (r: Option<Time>) {
    if ids == [] then None
    else
      var id := ids[|ids| - 1];
      Earlier(PendingDeadline(s, ids[..|ids| - 1]), if id in s.items
        then EarliestDeadline(s.waiters, s.items[id].waiters) else None)
  }

  function Enqueued(s: State, id: nat): (t: Time) {
    if id in s.items then s.items[id].enqueue else ZERO_TIME
  }

  /** Whether the window of the oldest pending item has passed at `now`. */
  predicate WindowPassed(cfg: Config, s: State, p: Partition, now: Time)
    requires p.pending != []
  {
    MaxWait(cfg, s) > 0 && now >= Enqueued(s, p.pending[0]) + MaxWait(cfg, s)
  }

  function ShouldDispatch(cfg: Config, s: State, p: Partition, force: bool, now: Time): (r: Option<FlushReason>) {
    if p.pending == [] then None
    else if force then Some(FlushManual)
    else if |p.pending| >= MaxBatchSize(cfg, s) then Some(FlushSize)
    else if cfg.maxBatchWeight > 0 && p.weight >= cfg.maxBatchWeight then Some(FlushWeight)
    else if cfg.maxBatchBytes > 0 && p.bytes >= cfg.maxBatchBytes then Some(FlushBytes)
    else
      match cfg.flushMode
      case Immediate => Some(FlushWait)
      case Manual => None
      case FixedWindow => if WindowPassed(cfg, s, p, now) then Some(FlushWait) else None
      case DeadlineAware =>
        if WindowPassed(cfg, s, p, now) then Some(FlushWait)
        else
          var d := PendingDeadline(s, p.pending);
          if d.Some? && now >= d.value - cfg.deadlineMargin then Some(FlushDeadline) else None
  }

  predicate TooLarge(cfg: Config, it: Item) {
    || (cfg.maxBatchWeight > 0 && it.weight > cfg.maxBatchWeight)
    || (cfg.maxBatchBytes > 0 && it.bytes > cfg.maxBatchBytes)
  }

  predicate Fits(cfg: Config, size: int, count: int, weight: int, bytes: int, it: Item) {
    && !(size > 0 && count + 1 > size)
    && !(cfg.maxBatchWeight > 0 && weight + it.weight > cfg.maxBatchWeight)
    && !(cfg.maxBatchBytes > 0 && bytes + it.bytes > cfg.maxBatchBytes)
  }

  const MAX_UINT64: nat := 0xFFFF_FFFF_FFFF_FFFF

  /**
   A pass over the pending items: those selected for the batch, those torn down (with the error
   delivered to their callers, or nothing when no caller is left), and those that stay queued.
   */
  datatype Selection = Selection(
    selected: seq<nat>, gone: seq<nat>, results: seq<Option<Delivery>>, remaining: seq<nat>,
    weight: int, bytes: int, minSeq: nat)

  const NO_SELECTION := Selection([], [], [], [], 0, 0, MAX_UINT64)

  function SelectOne(cfg: Config, size: int, acc: Selection, it: Item): (r: Selection) {
    if it.activeWaiters == 0 then
      acc.(gone := acc.gone + [it.id], results := acc.results + [None])
    else if acc.selected == [] && TooLarge(cfg, it) then
      acc.(gone := acc.gone + [it.id], results := acc.results + [Some(Broken(ItemTooLarge))])
    else if acc.selected != [] && !Fits(cfg, size, |acc.selected|, acc.weight, acc.bytes, it) then
      acc.(remaining := acc.remaining + [it.id])
    else
      acc.(selected := acc.selected + [it.id], weight := acc.weight + it.weight, bytes := acc.bytes + it.bytes,
      minSeq := if it.order < acc.minSeq then it.order else acc.minSeq)
  }

  function Select(cfg: Config, size: int, items: map<nat, Item>, ids: seq<nat>): (r: Selection)
    ensures |r.gone| == |r.results|
  {
    if ids == [] then NO_SELECTION
    else
      var acc := Select(cfg, size, items, ids[..|ids| - 1]);
      if ids[|ids| - 1] in items then SelectOne(cfg, size, acc, items[ids[|ids| - 1]]) else acc
  }

  /** The items named by `ids`. */
  function Records(items: map<nat, Item>, ids: seq<nat>): (r: seq<Item>) {
    if ids == [] then []
    else
      var id := ids[|ids| - 1];
      Records(items, ids[..|ids| - 1]) + if id in items then [items[id]] else []
  }

  /** A partition whose queue was cut down to what a pass left queued. */
  function Requeue(p: Partition, items: map<nat, Item>, sel: Selection): (r: Partition) {
    p.(pending := sel.remaining, failed := p.failed + Records(items, sel.gone))
  }

  function ClampWeight(w: int): (r: int) {
    if w < 1 then 1 else if w > 0x7FFF_FFFF_FFFF_FFFF then 0x7FFF_FFFF_FFFF_FFFF else w
  }

  /** The request built for the selected items. */
  function RequestFor(s: State, ids: seq<nat>): (r: seq<BatchItem>) {
    if ids == [] then []
    else
      var id := ids[|ids| - 1];
      var before := RequestFor(s, ids[..|ids| - 1]);
      if id in s.items then
        before + [BatchItem(s.items[id].id, s.items[id].key, EarliestDeadline(s.waiters, s.items[id].waiters), 0,
          ClampWeight(s.items[id].weight))]
      else before
  }

  function SumActive(items: map<nat, Item>, ids: seq<nat>): (n: int) {
    if ids == [] then 0
    else SumActive(items, ids[..|ids| - 1]) + if ids[|ids| - 1] in items then items[ids[|ids| - 1]].activeWaiters else 0
  }

  function MarkDispatched(items: map<nat, Item>, ids: seq<nat>, batch: nat): (r: map<nat, Item>) {
    map id | id in items :: if id in ids then items[id].(dispatched := true, batchID := batch) else items[id]
  }

  /** Starts a provider call for a non-empty selection. */
  function StartBatch(s: State, pk: string, sel: Selection): (s': State)
    requires pk in s.partitions
  {
    var p := s.partitions[pk];
    var batch := s.batchSeq + 1;
    SetPartition(s, pk, p.(bytes := p.bytes - sel.bytes, weight := p.weight - sel.weight))
    .(batchSeq := batch,
    items := MarkDispatched(s.items, sel.selected, batch),
    inflight := s.inflight[batch := Batch(sel.selected, SumActive(s.items, sel.selected), pk, sel.minSeq,
      BatchDeadline(s, sel.selected), false)],
    activeProvider := s.activeProvider + 1)
  }

  ghost function Dispatch(cfg: Config, s: State, pk: string): (s': State)
    requires pk in s.partitions
  {
    var p := s.partitions[pk];
    var sel := Select(cfg, MaxBatchSize(cfg, s), s.items, p.pending);
    var s1 := SetPartition(s, pk, Requeue(p, s.items, sel));
    var s2 := FinishAll(s1, pk, sel.gone, sel.results);
    if sel.selected == [] || pk !in s2.partitions then s2
    else if !RequestValid(RequestFor(s2, sel.selected)) then
      FinishAll(s2, pk, sel.selected, seq(|sel.selected|, _ => Some(Broken(ContractViolation))))
    else StartBatch(s2, pk, sel)
  }

  function PendingCount(s: State, pk: string): (n: nat) {
    if pk in s.partitions then |s.partitions[pk].pending| else 0
  }

  /** Drops leading pending items without callers. */
  function Prune(s: State, pk: string): (s': State)
    decreases PendingCount(s, pk)
  {
    if pk !in s.partitions || s.partitions[pk].pending == [] then s
    else
      var id := s.partitions[pk].pending[0];
      if id !in s.items || s.items[id].activeWaiters != 0 then s
      else
        Prune(RemovePending(s, pk, id), pk)
  }

  lemma {:induction false} SelectShrinks(cfg: Config, size: int, items: map<nat, Item>, ids: seq<nat>)
    ensures var r := Select(cfg, size, items, ids);
            && |r.remaining| <= |ids|
            && (ids != [] ==> |r.remaining| < |ids|)
            && (ids != [] && ids[0] in items ==> r.selected != [] || r.gone != [])
  {
    if ids != [] {
      SelectShrinks(cfg, size, items, ids[..|ids| - 1]);
    }
  }

  /** Dropping an item changes the item map and one partition's index only. */
  lemma DropFields(s: State, pk: string, id: nat)
    ensures var s' := DropItem(s, pk, id);
            && s' == s.(partitions := s'.partitions, items := s'.items)
            && s'.partitions.Keys == s.partitions.Keys
            && forall q :: q in s.partitions ==>
                             s'.partitions[q] == s.partitions[q].(active := s'.partitions[q].active,
                               live := s'.partitions[q].live)
  {
    hide RemoveActive;
  }

  lemma FinishFields(s: State, pk: string, id: nat, r: Option<Delivery>)
    ensures var s' := FinishItem(s, pk, id, r);
            && s' == s.(partitions := s'.partitions, items := s'.items, waiters := s'.waiters)
            && s'.partitions.Keys == s.partitions.Keys
            && forall q :: q in s.partitions ==>
                             s'.partitions[q] == s.partitions[q].(active := s'.partitions[q].active,
                               live := s'.partitions[q].live)
  {
    hide DropItem, DeliverAll;
    DropFields(s, pk, id);
    if id in s.items && r.Some? {
      DropFields(s.(waiters := DeliverAll(s.waiters, s.items[id].waiters, r.value)), pk, id);
    }
  }

  lemma {:induction false} FinishKeepsPending(s: State, pk: string, ids: seq<nat>, rs: seq<Option<Delivery>>)
    requires |ids| == |rs|
    ensures var s' := FinishAll(s, pk, ids, rs);
            && s'.partitions.Keys == s.partitions.Keys && PendingCount(s', pk) == PendingCount(s, pk)
  {
    hide FinishItem;
    if ids != [] {
      var n := |ids| - 1;
      FinishKeepsPending(s, pk, ids[..n], rs[..n]);
      FinishFields(FinishAll(s, pk, ids[..n], rs[..n]), pk, ids[n], rs[n]);
    }
  }

  /** The head of a queue always leaves it, so the dispatch loop below terminates. */
  lemma DispatchShrinks(cfg: Config, s: State, pk: string)
    requires pk in s.partitions && s.partitions[pk].pending != []
    ensures PendingCount(Dispatch(cfg, s, pk), pk) < PendingCount(s, pk)
  {
    hide Select, FinishAll, RequestFor, RequestValid;
    var p := s.partitions[pk];
    var sel := Select(cfg, MaxBatchSize(cfg, s), s.items, p.pending);
    SelectShrinks(cfg, MaxBatchSize(cfg, s), s.items, p.pending);
    var s1 := SetPartition(s, pk, Requeue(p, s.items, sel));
    FinishKeepsPending(s1, pk, sel.gone, sel.results);
    var s2 := FinishAll(s1, pk, sel.gone, sel.results);
    FinishKeepsPending(s2, pk, sel.selected, seq(|sel.selected|, _ => Some(Broken(ContractViolation))));
  }

  lemma PruneShrinks(s: State, pk: string)
    ensures PendingCount(Prune(s, pk), pk) <= PendingCount(s, pk)
    decreases PendingCount(s, pk)
  {
    hide RemovePending;
    if pk in s.partitions && s.partitions[pk].pending != [] {
      var id := s.partitions[pk].pending[0];
      if id in s.items && s.items[id].activeWaiters == 0 {
        HeadRemoved(s, pk, id);
        PruneShrinks(RemovePending(s, pk, id), pk);
      }
    }
  }

  lemma HeadRemoved(s: State, pk: string, id: nat)
    requires pk in s.partitions && s.partitions[pk].pending != [] && id == s.partitions[pk].pending[0] && id in s.items
    ensures PendingCount(RemovePending(s, pk, id), pk) < PendingCount(s, pk)
  {
    hide RemoveActive;
  }

  /** Dispatches from one partition until nothing is due or no provider slot is free. */
  ghost function DispatchLoop(cfg: Config, s: State, pk: string, force: bool, now: Time): (s': State)
    decreases PendingCount(s, pk)
  {
    if PendingCount(s, pk) == 0 || s.activeProvider >= MaxConcurrency(cfg, s) then s
    else
      var s1 := Prune(s, pk);
      if PendingCount(s1, pk) == 0 || ShouldDispatch(cfg, s1, s1.partitions[pk], force, now).None? then s1
      else
        PruneShrinks(s, pk);
        DispatchShrinks(cfg, s1, pk);
        DispatchLoop(cfg, Dispatch(cfg, s1, pk), pk, force, now)
  }

  ghost function SchedulePartition(cfg: Config, s: State, pk: string, force: bool, now: Time): (s': State) {
    if pk !in s.partitions then s else MaybeRetire(DispatchLoop(cfg, s, pk, force, now), pk)
  }

  ghost function ScheduleAll(cfg: Config, s: State, keys: seq<string>, force: bool, now: Time): (s': State) {
    if keys == [] then s
    else SchedulePartition(cfg, ScheduleAll(cfg, s, keys[..|keys| - 1], force, now), keys[|keys| - 1], force, now)
  }

  /** The instant at which a partition becomes dispatchable by time alone. */
  function DueAt(cfg: Config, s: State, p: Partition): (r: Option<Time>) {
    if p.pending == [] then None
    else
      var window := if MaxWait(cfg, s) > 0 then Some(Enqueued(s, p.pending[0]) + MaxWait(cfg, s)) else None;
      match cfg.flushMode
      case Immediate => None
      case Manual => None
      case FixedWindow => window
      case DeadlineAware =>
        var d := PendingDeadline(s, p.pending);
        Earlier(window, if d.Some? then Some(d.value - cfg.deadlineMargin) else None)
  }

  function EarliestDue(cfg: Config, s: State, keys: seq<string>): (r: Option<Time>) {
    if keys == [] then None
    else
      var pk := keys[|keys| - 1];
      Earlier(EarliestDue(cfg, s, keys[..|keys| - 1]), if pk in s.partitions then DueAt(cfg, s, s.partitions[pk])
        else None)
  }

  /** Re-arms the single timer; a due time already past fires at once. */
  ghost function ArmTimer(cfg: Config, s: State, now: Time): (s': State) {
    var next := EarliestDue(cfg, s, SortedKeys(s.partitions.Keys));
    s.(timer := if next.None? then None else Some(if next.value < now then now else next.value))
  }

  ghost function Schedule(cfg: Config, s: State, force: bool, now: Time): (s': State) {
    ArmTimer(cfg, ScheduleAll(cfg, s, SortedKeys(s.partitions.Keys), force, now), now)
  }

  // ---------------------------------------------------------------- completion

  datatype Completion = Panicked | Failed(err: int) | Responded(outcomes: seq<RawOutcome>)

  function ToOutcome(o: RawOutcome): (r: Outcome) {
    if o.found && o.err.None? then Found(o.value)
    else if o.err.Some? then Failure(o.err.value)
    else Missing
  }

  function OutcomeFor(outcomes: seq<RawOutcome>, id: nat): (r: Outcome) {
    var o := Lookup(outcomes, id);
    if o.Some? then ToOutcome(o.value) else Missing
  }

  /** What the callers of each batch item receive. */
  ghost function Results(done: Completion, ids: seq<nat>): (rs: seq<Option<Delivery>>)
    ensures |rs| == |ids|
  {
    match done
    case Panicked => seq(|ids|, _ => Some(Broken(ProviderPanic)))
    case Failed(err) => seq(|ids|, _ => Some(Broken(GlobalFailure(err))))
    case Responded(outcomes) =>
      if !Answers(outcomes, ids) then seq(|ids|, _ => Some(Broken(ContractViolation)))
      else seq(|ids|, i requires 0 <= i < |ids| => Some(Answer(OutcomeFor(outcomes, ids[i]))))
  }

  ghost function HandleComplete(cfg: Config, s: State, batch: nat, done: Completion, at: Time): (s': State) {
    if batch !in s.inflight then s
    else
      var b := s.inflight[batch];
      var s1 := s.(inflight := s.inflight - {batch}, activeProvider := s.activeProvider - 1);
      var s2 := FinishAll(s1, b.partition, b.items, Results(done, b.items));
      RetryBlocked(cfg, MaybeRetire(s2, b.partition), at)
  }

  // ---------------------------------------------------------------- barriers and shutdown

  function Signalled(signals: map<nat, Signal>, id: nat, r: BarrierReply): (signals': map<nat, Signal>) {
    if id in signals then signals[id := signals[id].(sent := signals[id].sent + [r])] else signals
  }

  predicate AnyPending(s: State, upTo: nat) {
    exists pk, i :: pk in s.partitions && 0 <= i < |s.partitions[pk].pending|
                    && s.partitions[pk].pending[i] in s.items && s.items[s.partitions[pk].pending[i]].order <= upTo
  }

  predicate AnyInflight(s: State, upTo: nat) {
    exists b :: b in s.inflight && s.inflight[b].minSeq <= upTo
  }

  predicate BarrierSatisfied(s: State, b: Barrier) {
    !AnyPending(s, b.upTo) && (b.kind == Flush || !AnyInflight(s, b.upTo))
  }

  /** Answers, in order, the barriers whose context expired or whose condition holds. */
  function TryBarriers(s: State, bs: seq<Barrier>, expired: set<nat>): (r: (seq<Barrier>, map<nat, Signal>)) {
    if bs == [] then ([], s.signals)
    else
      var (kept, signals) := TryBarriers(s, bs[..|bs| - 1], expired);
      var b := bs[|bs| - 1];
      if b.id in expired then (kept, Signalled(signals, b.id, TimedOut(b.kind)))
      else if BarrierSatisfied(s, b) then (kept, Signalled(signals, b.id, Done))
      else (kept + [b], signals)
  }

  function CompleteBarriers(s: State, expired: set<nat>): (s': State) {
    var (kept, signals) := TryBarriers(s, s.barriers, expired);
    s.(barriers := kept, signals := signals)
  }

  function SignalAll(signals: map<nat, Signal>, bs: seq<Barrier>, r: BarrierReply): (signals': map<nat, Signal>) {
    if bs == [] then signals
    else Signalled(SignalAll(signals, bs[..|bs| - 1], r), bs[|bs| - 1].id, r)
  }

  function FailBarriers(s: State, r: BarrierReply): (s': State) {
    s.(barriers := [], signals := SignalAll(s.signals, s.barriers, r))
  }

  ghost function HandleControl(cfg: Config, s: State, kind: ControlKind, id: nat, at: Time): (s': State) {
    var s1 := Schedule(cfg, if kind == Close then s.(closing := true) else s, true, at);
    s1.(barriers := s1.barriers + [Barrier(id, kind, s1.submitSeq)],
    signals := s1.signals[id := Signal(kind, s1.submitSeq, [])])
  }

  /** Caller `w` belongs to an item of the index. */
  predicate Indexed(s: State, w: nat) {
    w in s.waiters && s.waiters[w].home in s.items && w in s.items[s.waiters[w].home].waiters
  }

  function AllCancelled(inflight: map<nat, Batch>): (r: map<nat, Batch>) {
    map b | b in inflight :: inflight[b].(cancelled := true)
  }

  function HandleEngineCancel(s: State): (s': State) {
    FailBarriers(
      s.(closing := true, engineDone := true,
      waiters := map w | w in s.waiters :: if Indexed(s, w) then Deliver(s.waiters, w, Broken(EngineClosed))[w]
        else s.waiters[w],
      inflight := AllCancelled(s.inflight)),
      ShutDown)
  }

  predicate Drained(s: State) {
    && s.inflight == map[]
    && s.activeProvider <= 0
    && forall pk :: pk in s.partitions ==> s.partitions[pk].live <= 0
  }

  // ---------------------------------------------------------------- the event loop

  datatype Event =
    | Submit(req: SubmitReq, deadline: Option<Time>, at: Time)
    | Cancel(part: string, waiter: nat)
    | Unblock(waiter: nat)
    | Complete(batch: nat, done: Completion, at: Time)
    | Control(kind: ControlKind, id: nat, at: Time)
    | TimerFired(at: Time)
    | EngineCancel

  function Arrive(s: State, req: SubmitReq, deadline: Option<Time>): (s': State) {
    s.(waiters := s.waiters[req.waiter := Waiter(req.part, req.key, deadline, true, [], [], 0)])
  }

  ghost function Handle(cfg: Config, s: State, e: Event): (s': State) {
    match e
    case Submit(req, deadline, at) => HandleSubmit(cfg, Arrive(s, req, deadline), req, at)
    case Cancel(part, w) => HandleCancel(s, part, w)
    case Unblock(w) => s.(blocked := Unpark(s.blocked, w))
    case Complete(batch, done, at) => HandleComplete(cfg, s, batch, done, at)
    case Control(kind, id, at) => HandleControl(cfg, s, kind, id, at)
    case TimerFired(at) => Schedule(cfg, s.(timer := None), false, at)
    case EngineCancel => HandleEngineCancel(s)
  }

  /** One turn of the loop: handle the event, schedule, answer barriers, stop once closed and drained. */
  ghost function Turn(cfg: Config, s: State, e: Event, now: Time, expired: set<nat>): (s': State) {
    var s1 := Handle(cfg, s, e);
    if e.EngineCancel? && Drained(s1) then s1.(stopped := true)
    else
      var s2 := CompleteBarriers(Schedule(cfg, s1, false, now), expired);
      if s2.closing && Drained(s2) then FailBarriers(s2, Done).(stopped := true) else s2
  }
}
