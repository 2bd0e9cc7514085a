# BatchWeaver runtime, modelled and proved in Dafny

BatchWeaver turns many scalar lookups into few batched provider calls. This project models the parts of it that
decide whether that is safe, and proves what they promise.

- **The coordinator** of a bound operation: one event loop that owns partitioned queues, in-flight batches, parked
  submissions, barriers and a timer. `CoordModel.dfy` gives every handler as a function on a state value;
  `Coordinator.dfy` is the same coordinator as an object whose handlers update fields in place, each proved to compute
  its function. `CoordInvariant.dfy` states the invariant. `CoordSteps`, `CoordSubmit`, `CoordCancel`, `CoordDispatch`
  and `CoordTurns` prove that every step keeps it. `CoordTheorems`, `CoordProperties`, `CoordAdmission`,
  `CoordDue`, `CoordTimer`, `CoordBarriers`, `CoordShutdown`, `CoordTotals` and `CoordParking` draw the consequences for every run, and
  `CoordCases` shows surprising runs and states. `Wire.dfy` holds the request and response validation that result
  mapping rests on.
- **Caches that must agree with something simple**: the scope memo table (`Memo.dfy`, `MemoEviction.dfy`), the
  single-flight LRU analysis cache under every interleaving of its critical sections (`AnalysisCache.dfy`,
  `CacheRuns.dfy`, `CacheReplies.dfy`, `CacheOrder.dfy`), and the partition encoding (`PartitionEncoding.dfy`).
- **Graph and scheduling algorithms**: dispatch waves and the critical path (`WaveTheory.dfy`, `WaveGraph.dfy`),
  level-batched traversal (`Traversal.dfy`, `TraversalOrder.dfy`), the weighted-fair scheduler (`Fairness.dfy`,
  `FairLedger.dfy`) and the log-bucket histogram (`HistogramTheory.dfy`, `Histogram.dfy`).
- **A query rewriting**: an exact-key SELECT turned into one ordered batch query (`SqlSynth.dfy`, `SqlMeaning.dfy`,
  `SqlTypes.dfy`).

## How the model stands for the code

- Time is an integer; each event carries the instants the code reads from its clock. Callers, provider workers, the
  disk, compute functions and loaders are the environment: what they return is a parameter or an event.
- A run is any finite sequence of loop turns, interleaved with adaptive-settings changes and request numbers taken by
  other operations. Nothing is assumed of the order of events. A submitted request carries a fresh caller and the
  hash of its own key, and a control request a fresh reply channel.
- Go's references to items and callers are ids into maps. The map of items holds exactly the items the coordinator still
  references, so removing an item from it is dropping the last reference.
- A partition also records the items its selection passes gave up. No handler reads that record; it is what the totals
  are compared with.
- The key strategy is assumed to keep its documented contract (runtime/key.go:18-31): equality is an equivalence, equal
  keys hash alike, sizes are not negative.
- Integers are unbounded and floating-point numbers are reals.

## Results that differ from what one might expect

- The byte and weight totals of a partition never fall below what is queued, but they do not always equal it: an item
  failed as too large is not subtracted (runtime/coordinator_dispatch.go:213-217, 304-310). Over every run the excess is
  exactly the size of the items the partition gave up since it was created, so the totals are exact if and only if it
  gave up none (`CoordTotals.TotalsMeaning`). For one dispatch the condition can be read off the head of the queue
  (`CoordProperties.TotalsStayExact`), and `CoordCases.OversizedDrifts` is a run that ends with an empty queue refusing a
  submission.
- With every provider slot taken and a flush time already past, each scheduling pass arms the timer for the current
  instant, so the loop is woken at once, again and again, until a slot is freed (`CoordTimer.FullSlotsRearmAtOnce`,
  after a concrete run `CoordCases.SlotTakenRearms`). `CoordTimer.RearmsAtOnce` says exactly when a pass does so: if and
  only if it leaves a queue overdue, which needs every slot taken. The exact timer property therefore needs a free slot.
- A parked submission is taken up again only when a batch in flight completes. Room made by a cancellation does not help
  it, and closing does not wait for it (`CoordParking.LeftBehind`); `CoordCases.ParkedLeftBehind` is a run that stops with
  its caller neither answered nor refused. No submission is lost in any other way (`CoordParking.NoneLost`).
- With deduplication a batch counts callers when it starts but is lowered once per item, and callers may join it later.
  It may then run on after its last caller left (`CoordCases.CoalescedOutlivesCallers`), and a new caller may join a
  batch that was already cancelled (`CoordCases.JoinsCancelledBatch`).
- A fairness class whose name is the empty string is indistinguishable from "none", and the scan does not see
  priorities below -2^30. A pick finds a class if and only if some named class is `Visible`: eligible, and not outranked
  by an eligible class without a name (`Fairness.PickVisible`). Until then every pick reports that nothing waits, as at
  `Fairness.EmptyNameHidesBacklog` and `Fairness.LowPriorityHidesBacklog`. The weighted share is therefore kept among the
  named classes (`Fairness.ServiceShare`), and over all classes exactly when none is without a name or nothing was due to
  it yet (`Fairness.ServiceShareOfAll`); `Fairness.UnnamedStarves` is a run that breaks it.
- Two histograms whose accuracies differ by no more than 1e-12 are merged although their buckets do not line up. Adding
  buckets is exact for every pair of streams if and only if the growth factors are equal (`Histograms.ExactWhenEqual`);
  `Histograms.CloseAccuraciesMisfile` gives two accuracies the merge takes for equal, and a sample it misfiles.
- Replacing a cached entry does not re-check the byte bound (internal/analysiscache/cache.go:225-232). The branch is
  never taken, as `CacheRuns.StoresFresh` shows.

## Model

The short methods of the coordinator class (`Place`, `JoinItem`, `Enqueue`, `Overflow`, `Detach`, `Abandon`,
`RemovePendingItem`, `MaybeRetire`, `Deliver`, `DropItem`, `StartBatch`, `FinishItem`, `CountCallers`) carry out the
model's function of the same name on the fields and have no row of their own.

| member | source | states |
|---|---|---|
| `Wire.NewBatchRequest` | request.go:22-39 | a request is accepted exactly when it is non-empty, every item is valid and the ids are pairwise distinct; otherwise the reported index is a first offender |
| `Wire.Validate` | response.go:114-126 | accepts exactly the responses whose outcomes are well-formed and whose ids are pairwise distinct |
| `Wire.ValidateAgainst` | response.go:131-152 | accepts exactly the responses whose ids are the requested ids, each once; a reported id really is unexpected or unanswered |
| `Wire.RequestMeans` | request.go:22-39 | a valid request told item by item: ids and weights positive, priorities within a thousand, no id twice |
| `Wire.AnswersMeans` | response.go:131-152 | a response answers a request exactly if its ids are positive, distinct and requested, every requested id has an outcome, and no outcome is both found and failed |
| `Wire.AnswersOncePerId` | runtime/coordinator_dispatch.go:425-431 | in an accepted response the index by id finds the one outcome given for each requested id |
| `StringOrder.SortKeys` | runtime/coordinator.go:236-243 | the partition keys in the one ascending order of the key set |
| `CoordTurns.TurnKeeps` | runtime/coordinator.go:201-233 | every turn of the loop, whatever the event, keeps the invariant and only moves callers, items and barriers forward |
| `CoordTheorems.RunInvariant` | runtime/coordinator.go:201-233 | every state of every run satisfies the invariant |
| `CoordTheorems.RunProgress` | runtime/coordinator.go:201-233 | between any two states of a run a result is sent at most once, lawfully, never after the caller left; an item keeps what was asked for and a dispatched one its batch; a batch keeps its items; an answered barrier stays answered |
| `CoordTheorems.ResolvedOnce` | runtime/coordinator_handlers.go:219-226 | a caller is resolved at most once, by one delivery or one cancellation and never both, and stays exactly so for the rest of the run |
| `CoordTheorems.DrainedResolvesAll` | runtime/coordinator.go:246-256 | whenever the coordinator is drained every caller it admitted has been delivered to or cancelled |
| `CoordTheorems.EngineCancelResolvesAll` | runtime/coordinator_dispatch.go:454-472 | after an engine shutdown no admitted caller is left waiting, drained or not |
| `CoordTheorems.BatchingRefinesScalar` | runtime/coordinator_dispatch.go:411-452 | if the provider answers each item as f of its partition and key, every answer any caller receives in any run is what f says of that caller's own partition and key: its value when f finds one, missing when it finds none, its error when it fails; with deduplication and any interleaving |
| `CoordTheorems.RequestKept` | runtime/coordinator_dispatch.go:222-268 | while a batch is in flight its items, and the ids, keys and weights of the request built from them, are the ones it was dispatched with |
| `CoordTheorems.CompletionDelivers` | runtime/coordinator_dispatch.go:366-452 | each active caller of each batch item receives exactly one result, and it is the panic or provider error if there was one, the contract error if the response's ids are not the batch's ids, and otherwise what the one outcome with the item's id says: found with its value, missing, or its error |
| `CoordTheorems.ResultsGiven` | runtime/coordinator_dispatch.go:376-443 | the same of result mapping, for every completion and every list of ids |
| `CoordTheorems.BarrierMeaning` | runtime/coordinator_dispatch.go:20-70 | once a barrier is answered nil, no item admitted before it is ever queued again, and for a drain or close none is in flight either, for the rest of the run |
| `CoordTheorems.BarrierAnsweredOnce` | runtime/coordinator_dispatch.go:36-58 | a barrier is answered at most once and its answer never changes |
| `CoordShutdown.EngineCancelMeans` | runtime/coordinator_dispatch.go:454-472 | a shutdown tells every caller still waiting that the engine closed, and no one else; cancels every provider call; answers every barrier; and leaves queues and parked submissions as they are |
| `CoordShutdown.StopMeans` | runtime/coordinator.go:201-256 | a turn ends with the loop stopped if and only if it is closing and no item is left, and then no barrier is left; closing begins exactly with a close or a shutdown |
| `CoordShutdown.DrainedMeans` | runtime/coordinator.go:246-256 | the counters looked at are zero exactly if no item is left |
| `CoordShutdown.ControlMeans` | runtime/coordinator_dispatch.go:20-32 | a control request adds one barrier, last, that covers every admission so far; a close also refuses new submissions |
| `CoordShutdown.TurnFlushes` | runtime/coordinator.go:201-233 | whatever the event, a turn that ends with a free slot leaves nothing that ought to have been flushed |
| `CoordShutdown.TurnWakes` | runtime/coordinator.go:201-233 | whatever the event, a turn that ends with a free slot and goes on leaves the timer right: something is due at an instant if and only if the timer has fired by then |
| `CoordBarriers.SatisfiedMeans` | runtime/coordinator_dispatch.go:61-91 | the test on queues and batches is exactly that nothing the barrier covers is left, queued or, except for a flush, in flight |
| `CoordBarriers.BarrierFate` | runtime/coordinator_dispatch.go:36-50 | each barrier is timed out if its context has expired, answered nil if nothing it covers is left, and otherwise kept unanswered; exactly one of the three |
| `CoordBarriers.KeptWaits` | runtime/coordinator_dispatch.go:36-50 | a barrier still there after any turn of the loop has an item it covers to wait for |
| `CoordTheorems.ControlRecords` | runtime/coordinator_dispatch.go:20-32 | a control request leaves a barrier that covers every admission so far |
| `CoordTheorems.ClampBounds` | runtime/adaptive.go:37-59 | adaptive size and concurrency lie between one and the configured bound: as asked within it, otherwise the bound; the wait is as asked within the configured one, that one for zero or more, and zero if negative |
| `CoordProperties.IndexExact` | runtime/coordinator_handlers.go:15-79 | in every reachable state a partition's index is exactly its pending items and those of its in-flight batches, each once in one bucket; `live` is their number; a partition with a batch in flight is not retired; with deduplication no two of them have equal keys |
| `CoordProperties.BoundsHold` | runtime/coordinator_dispatch.go:279-301 | in every reachable state in-flight batches number `activeProvider` and at most the configured concurrency, every batch is non-empty and within size, weight and byte limits, and every queue is within its item, byte and weight limits |
| `CoordProperties.Isolation` | runtime/partition.go:18-21 | a batch serves one partition: every caller it answers asked in that partition with a key equal to the item's |
| `CoordProperties.DispatchSplits` | runtime/coordinator_dispatch.go:196-247 | a dispatch splits the queue into batch, oversized and remaining, order kept, nothing lost or doubled; the head always leaves; the branches for an item without callers and for a rejected request are never taken |
| `CoordDispatch.SelectSpec` | runtime/coordinator_dispatch.go:204-235 | for every queue and all limits: the three lists partition the queue in order, the sums are exact, the batch fits, only too-large or unwanted items are given up, and nothing left behind would still fit |
| `CoordDispatch.SelectGreedy` | runtime/coordinator_dispatch.go:204-235 | items leave the queue in order of arrival as far as they fit: one left behind would have overfilled the batch as it stood when its turn came |
| `CoordDispatch.DispatchKeeps` | runtime/coordinator_dispatch.go:196-276 | a dispatch with a free slot keeps the invariant and moves callers forward |
| `CoordProperties.TotalsStayExact` | runtime/coordinator_dispatch.go:211-253 | a dispatch keeps the running totals equal to what is queued if and only if the head of the queue is not too large for any batch |
| `CoordTotals.TotalsMeaning` | runtime/coordinator_dispatch.go:204-253 | in every reachable state a partition's totals exceed what it has queued by exactly the size of the oversized items it gave up since it was created, and are exact if and only if it gave up none |
| `CoordCases.OversizedDrifts` | runtime/coordinator_dispatch.go:213-217 | a run from the start in which an oversized item heads the queue when a slot is freed: its queue ends empty with a weight total of 9, and a submission of weight 2 is refused by the limit of 10 |
| `CoordProperties.CancelledWithLastCaller` | runtime/coordinator_handlers.go:144-166 | without deduplication, in every reachable state a batch's provider context is cancelled exactly when none of its callers is active any more |
| `CoordCases.CoalescedOutlivesCallers` | runtime/coordinator_handlers.go:150-164 | with deduplication, both callers of a shared item leave and the provider context is not cancelled |
| `CoordCases.JoinsCancelledBatch` | runtime/coordinator_handlers.go:34-46 | with deduplication, a new caller joins an item of a batch whose context was cancelled |
| `CoordProperties.BatchDeadlineSpec` | runtime/coordinator_dispatch.go:316-335 | a batch deadline is set exactly when every item has an active caller and every active caller has a deadline; it is then the latest of theirs, or the zero time if all lie before it |
| `CoordAdmission.SubmitOutcome` | runtime/coordinator_handlers.go:15-115 | exactly one thing happens to a submission, told on the raw fields: refused while closing; joined to the equal live item if there is one, which alone gains a caller; queued last with its own key, size and instant if no limit would be broken; or handed to the overflow policy, naming a limit that really is broken |
| `CoordAdmission.TwinFound` | runtime/coordinator_handlers.go:34-49 | looking in one hash bucket finds an equal live item exactly when the partition has one |
| `CoordAdmission.CancelOutcome` | runtime/coordinator_handlers.go:130-170 | a cancellation changes its caller alone, who stays unanswered; the item goes exactly when it is still queued and nobody else waits for it, leaving its partition lower by its own size; one that finds no waiting caller changes nothing |
| `CoordParking.NoneLost` | runtime/coordinator_handlers.go:15-138 | in every reachable state a caller is parked if and only if it has had no reply and did not withdraw |
| `CoordParking.LeftBehind` | runtime/coordinator_dispatch.go:366-392 | a parked submission stays parked, unanswered, through every step but the completion of a batch in flight and its own withdrawal |
| `CoordParking.SubmitPlaces` | runtime/coordinator_handlers.go:15-115 | the handler that takes a submission answers it or parks it last, and touches no other caller |
| `CoordCases.ParkedLeftBehind` | runtime/coordinator_handlers.go:118-127 | a run in which a cancellation empties the queue before a parked submission, which is left behind when the loop is closed and stops |
| `CoordTimer.NoMissedWakeUp` | runtime/coordinator_dispatch.go:475-515 | after a scheduling pass with a free slot, in fixed-window or deadline-aware mode, nothing is dispatchable now, and at any instant something is dispatchable if and only if the timer has fired by then |
| `CoordDue.PassFlushes` | runtime/coordinator_dispatch.go:112-193 | a pass that ends with a free slot leaves nothing that ought to have been flushed: forced or in immediate mode every queue is empty; in every mode what is left could not fill a batch by number, weight or bytes; in the timed modes no oldest item has waited its time; in deadline-aware mode no waiting caller's deadline is within the margin |
| `CoordDue.NotBeforeTime` | runtime/coordinator_dispatch.go:112-193 | an unforced pass leaves a queue exactly as it is while it cannot fill a batch and its time has not come; in manual mode it never comes |
| `CoordDue.DueMeans` | runtime/coordinator_dispatch.go:143-179 | a queue is due if and only if it is not empty and the flush is forced, the mode is immediate, a batch could be filled, the oldest item has waited its time, or an active caller's deadline is within the margin |
| `CoordDue.ReasonIsReal` | runtime/coordinator_dispatch.go:143-179 | the reason given for a flush names a limit or a time that was really reached |
| `CoordDue.ControlFlushes` | runtime/coordinator_dispatch.go:20-32 | after a control request that leaves a slot free nothing is queued any more, whatever the mode |
| `CoordDue.EarliestSpec` | runtime/coordinator.go:56-67 | the earliest deadline is the least one of an active caller, if any has one |
| `CoordDue.PendingSpec` | runtime/coordinator_dispatch.go:182-193 | the same over all queued items |
| `CoordDue.RequestMeans` | runtime/coordinator_dispatch.go:222-227 | each request item carries its item's id and key, its weight in range, and the least deadline of its active callers |
| `CoordTimer.RearmsAtOnce` | runtime/coordinator_dispatch.go:475-515 | a scheduling pass arms the timer for the instant it runs at if and only if it leaves a queue overdue, and only with every slot taken |
| `CoordTimer.FullSlotsRearmAtOnce` | runtime/coordinator_dispatch.go:112-133 | with every slot taken and a queue overdue, a pass leaves both as they are and arms the timer for the instant it runs at, so the next pass does the same |
| `CoordCases.SlotTakenRearms` | runtime/coordinator_dispatch.go:507-514 | a run that ends with the one slot taken and a queue due at 100: every pass from then on arms the timer for its own instant |
| `CoordTurns.ScheduleMoves` | runtime/coordinator_dispatch.go:112-133 | a scheduling pass keeps the invariant, moves callers forward and leaves admissions, parked submissions and barriers alone |
| `CoordTurns.CompleteKeeps` | runtime/coordinator_dispatch.go:366-452 | handling a completion keeps the invariant and moves callers forward |
| `CoordTurns.EngineCancelKeeps` | runtime/coordinator_dispatch.go:457-472 | shutting the engine down keeps the invariant and moves callers forward |
| `CoordTurns.DrainedEmpty` | runtime/coordinator.go:246-256 | the drained test, which looks only at counters, implies that no item is left |
| `CoordSubmit.SubmitKeeps` | runtime/coordinator_handlers.go:15-79 | handling a submission keeps the invariant |
| `CoordSubmit.RetryKeeps` | runtime/coordinator_handlers.go:118-127 | resubmitting parked requests keeps the invariant |
| `CoordCancel.CancelKeeps` | runtime/coordinator_handlers.go:130-170 | handling a cancellation keeps the invariant |
| `CoordinatorClass.Coordinator.constructor` | runtime/coordinator.go:166-197 | a new coordinator is valid and empty |
| `CoordinatorClass.Coordinator.Turn` | runtime/coordinator.go:201-233 | one turn of the loop on the object: it stays valid, computes the model's turn, and moves every caller forward under any law the provider obeys |
| `CoordinatorClass.Coordinator.Handle` | runtime/coordinator.go:208-226 | the selected event's handler computes the model's state |
| `CoordinatorClass.Coordinator.HandleSubmit` | runtime/coordinator_handlers.go:15-79 | the fields after a submission are the model's |
| `CoordinatorClass.Coordinator.FindEqual` | runtime/coordinator_handlers.go:35-36 | the bucket scan finds the first item with an equal key |
| `CoordinatorClass.Coordinator.RetryBlocked` | runtime/coordinator_handlers.go:118-127 | parked submissions are resubmitted in order |
| `CoordinatorClass.Coordinator.Unblock` | runtime/coordinator_handlers.go:131-138 | the first parked submission of the caller is withdrawn |
| `CoordinatorClass.Coordinator.FindCaller` | runtime/coordinator_handlers.go:144-148 | the three nested scans find the item of an active caller exactly when it has one in the partition |
| `CoordinatorClass.Coordinator.HandleCancel` | runtime/coordinator_handlers.go:130-170 | the fields after a cancellation are the model's |
| `CoordinatorClass.Coordinator.RemoveActive` | runtime/coordinator_handlers.go:189-202 | the item leaves its bucket, and an empty bucket the index |
| `CoordinatorClass.Coordinator.DeliverAll` | runtime/coordinator_dispatch.go:305-307 | every active caller in the list gets the result |
| `CoordinatorClass.Coordinator.FinishAll` | runtime/coordinator_dispatch.go:395-406 | each item of a list is finished with its own result |
| `CoordinatorClass.Coordinator.HandleControl` | runtime/coordinator_dispatch.go:20-32 | a forced pass, then a barrier covering every admission so far |
| `CoordinatorClass.Coordinator.TryCompleteBarriers` | runtime/coordinator_dispatch.go:36-50 | expired barriers time out, satisfied ones are answered nil, the rest are kept in order |
| `CoordinatorClass.Coordinator.AnswerBarrier` | runtime/coordinator_dispatch.go:39-47 | one barrier is timed out, answered nil or kept |
| `CoordinatorClass.Coordinator.FailBarriers` | runtime/coordinator_dispatch.go:53-58 | every barrier is answered and none is kept |
| `CoordinatorClass.Coordinator.BarrierSatisfied` | runtime/coordinator_dispatch.go:61-69 | the test the code runs is the barrier's meaning over all queues and batches |
| `CoordinatorClass.Coordinator.AnyPending` | runtime/coordinator_dispatch.go:72-81 | true exactly when some queued item was admitted by then |
| `CoordinatorClass.Coordinator.AnyInflight` | runtime/coordinator_dispatch.go:84-91 | true exactly when some batch holds an item admitted by then |
| `CoordinatorClass.Coordinator.Schedule` | runtime/coordinator_dispatch.go:112-133 | the pass over partitions in sorted order computes the model's pass |
| `CoordinatorClass.Coordinator.DispatchLoop` | runtime/coordinator_dispatch.go:119-129 | dispatching from one partition while a slot is free and a flush is due, with its termination |
| `CoordinatorClass.Coordinator.Prune` | runtime/coordinator_dispatch.go:136-140 | leading items without callers are removed |
| `CoordinatorClass.Coordinator.ShouldDispatch` | runtime/coordinator_dispatch.go:143-179 | the flush reason is the model's, whose meaning on the contents of the queue `CoordDue.DueMeans` and `CoordDue.ReasonIsReal` give |
| `CoordinatorClass.Coordinator.EarliestDeadline` | runtime/coordinator.go:56-67 | the earliest deadline of an active caller of the item |
| `CoordinatorClass.Coordinator.PendingDeadline` | runtime/coordinator_dispatch.go:182-193 | the earliest deadline of an active caller among pending items |
| `CoordinatorClass.Coordinator.ItemLatest` | runtime/coordinator.go:71-89 | the latest deadline of the active callers and whether all have one |
| `CoordinatorClass.Coordinator.BatchContext` | runtime/coordinator_dispatch.go:316-335 | the batch's deadline, if any |
| `CoordinatorClass.Coordinator.SelectPass` | runtime/coordinator_dispatch.go:204-236 | the filtering loop selects, gives up and keeps the model's items, tearing down those given up as it goes |
| `CoordinatorClass.Coordinator.DispatchBatch` | runtime/coordinator_dispatch.go:196-276 | the fields after a dispatch are the model's |
| `CoordinatorClass.Coordinator.BuildRequest` | runtime/coordinator_dispatch.go:223-227 | one batch item per selected item, in order, with its key, weight and earliest deadline |
| `CoordinatorClass.Coordinator.HandleComplete` | runtime/coordinator_dispatch.go:366-392 | the fields after a completion are the model's |
| `CoordinatorClass.Coordinator.ResultsFor` | runtime/coordinator_dispatch.go:376-443 | one result per batch item, the model's, whose meaning for every response `CoordTheorems.ResultsGiven` gives |
| `CoordinatorClass.Coordinator.HandleEngineCancel` | runtime/coordinator_dispatch.go:457-472 | every caller of every indexed item is told, every batch context cancelled, every barrier failed |
| `CoordinatorClass.Coordinator.CloseCallers` | runtime/coordinator_dispatch.go:459-467 | the nested scans over partitions, buckets and items tell every caller of every indexed item, each once |
| `CoordinatorClass.Coordinator.CancelBatches` | runtime/coordinator_dispatch.go:468-470 | every batch in flight is cancelled |
| `CoordinatorClass.Coordinator.PartitionDue` | runtime/coordinator_dispatch.go:483-500 | the instant one partition becomes dispatchable by time alone |
| `CoordinatorClass.Coordinator.NextDue` | runtime/coordinator_dispatch.go:476-503 | the earliest such instant over all partitions |
| `CoordinatorClass.Coordinator.ComputeNextTimer` | runtime/coordinator_dispatch.go:475-515 | the timer is armed for the earliest due time over all partitions, or for now if that is past |
| `CoordinatorClass.Coordinator.Drained` | runtime/coordinator.go:246-256 | true exactly when no batch, provider call or live item is counted |
| `CoordinatorClass.Coordinator.ApplySettings` | runtime/adaptive.go:37-59 | clamped settings are installed and the coordinator stays valid |
| `CoordinatorClass.Coordinator.ClearSettings` | runtime/adaptive.go:63-65 | settings are cleared and the coordinator stays valid |
| `Memo.MemoTable.Get` | runtime/memo.go:32-41 | lookup through one hash bucket equals lookup in the insertion-ordered list |
| `Memo.MemoTable.Put` | runtime/memo.go:45-65 | the list becomes that of the bounded association list; buckets, list and byte count keep agreeing |
| `Memo.MemoTable.EvictOldest` | runtime/memo.go:68-85 | exactly the oldest record leaves list and bucket |
| `Memo.MemoTable.constructor` | runtime/memo.go:17-23 | a new table is valid and empty |
| `Memo.FindsFirstPut` | runtime/memo.go:32-65 | over every history, a found value is the first put for (partition, key) since it was last absent, not evicted since |
| `MemoEviction.PutFinds` | runtime/memo.go:45-65 | after a put its identity is found: with the record it already had, or with the new one, the newest in the table, if and only if that one alone is within the limits; otherwise the table is empty |
| `MemoEviction.GoneOnlyCrowded` | runtime/memo.go:59-85 | over every history, a result found once and absent later was crowded out in between: a new record was stored, and the result with it and all newer ones exceeded the limits |
| `MemoEviction.TrimKeeps` | runtime/memo.go:59-64 | eviction keeps exactly the records that fit together with all newer ones |
| `Memo.TrimIs` | runtime/memo.go:59-64 | what is evicted is the shortest oldest prefix whose removal restores the limits |
| `Memo.BucketFinds` | runtime/memo.go:35-39 | hash collisions never change what is found |
| `PartitionEncoding.PutUvarint` | runtime/partition.go:55-57 | the loop writes the base-128 prefix |
| `PartitionEncoding.PartitionFromBytes` | runtime/partition.go:51-61 | the encoder's loop writes the tagged, length-delimited components (the string form, lines 37-47, is the same loop) |
| `PartitionEncoding.RoundTrip` | runtime/partition.go:37-61 | decoding an encoding gives back the components |
| `PartitionEncoding.Injective` | runtime/partition.go:18-21 | two component lists have the same encoding if and only if they are equal |
| `PartitionEncoding.SingleApart` | runtime/partition.go:63-68 | the single partition differs from every composite one, the empty one included |
| `PartitionEncoding.BufferSuffices` | runtime/partition.go:54-56 | every 64-bit length fits the ten-byte prefix buffer |
| `AnalysisCache.Cache.EnterLocked` | internal/analysiscache/cache.go:152-176 | a hit moves its entry to the front; a miss joins the flight for the key or registers one |
| `AnalysisCache.Cache.constructor` | internal/analysiscache/cache.go:36-47 | a new cache is empty, with defaults for bounds that are not positive |
| `AnalysisCache.Cache.MoveToFront` | internal/analysiscache/cache.go:154 | the entry found leads the list, the others keep their order |
| `AnalysisCache.Cache.Replace` | internal/analysiscache/cache.go:225-232 | the replacing branch as written |
| `AnalysisCache.Cache.StoreDiskHitLocked` | internal/analysiscache/cache.go:181-186 | a disk hit is counted and inserted |
| `AnalysisCache.Cache.InsertLocked` | internal/analysiscache/cache.go:221-247 | a value over the bound is refused; otherwise it goes to the front and entries leave at the back until the bounds hold |
| `AnalysisCache.Cache.EvictBack` | internal/analysiscache/cache.go:236-246 | the eviction loop keeps the longest prefix of the list that fits |
| `AnalysisCache.Cache.PublishLocked` | internal/analysiscache/cache.go:201-205 | the flight gets its result and leaves the table |
| `AnalysisCache.InsertKeeps` | internal/analysiscache/cache.go:221-247 | inserting an absent key keeps map, list and byte total in agreement and within bounds; the new entry survives; as few entries leave as possible |
| `AnalysisCache.TouchKeeps` | internal/analysiscache/cache.go:153-154 | a hit only reorders the list |
| `CacheRuns.RunInvariant` | internal/analysiscache/cache.go:148-210 | every state of every interleaving of lookups satisfies the cache invariant |
| `CacheRuns.BoundsHold` | internal/analysiscache/cache.go:221-247 | after every critical section map and list hold the same entries, `bytes` is their total, and both bounds hold |
| `CacheRuns.OneLeader` | internal/analysiscache/cache.go:174-176 | at most one lookup leads a key at any time |
| `CacheRuns.WaiterGetsLeaders` | internal/analysiscache/cache.go:160-172 | a lookup that waited returns the value or error its flight's leader returned |
| `CacheRuns.ComputesOnce` | internal/analysiscache/cache.go:146-147 | compute runs at most once per flight, and an unfinished flight has a leader at work |
| `CacheRuns.RepliesProduced` | internal/analysiscache/cache.go:148-210 | no lookup returns a payload that was not loaded or computed for its own key; `CacheReplies.ProducedMeans` ties that record to the events |
| `CacheReplies.ValidKeyMeans` | internal/analysiscache/cache.go:345-351 | a key is well-formed exactly if it is the algorithm's name followed by 64 hexadecimal digits |
| `CacheReplies.GivenForGood` | internal/analysiscache/cache.go:148-210 | in every state after an event its thread has what the event gave it: a computed result or a loaded value is published and returned unchanged, a hit returns the cached entry found, a malformed key is refused, a waiter returns the result of its flight, one that gave up the context's error |
| `CacheReplies.RepliesSettled` | internal/analysiscache/cache.go:148-210 | behind every reply stands an event of the same thread that settled it: a malformed key on entry, a context done, a cached entry found, a disk hit, a computation or the waking by a published flight for the same key |
| `CacheReplies.ProducedMeans` | internal/analysiscache/cache.go:178-208 | the recorded payloads are exactly those the disk or compute yielded, each under its caller's key |
| `CacheReplies.StatsCount` | internal/analysiscache/cache.go:150-208 | hits, misses and disk hits count exactly those events, and every entry ever stored is still cached or counted as evicted |
| `CacheRuns.StoresFresh` | internal/analysiscache/cache.go:221-235 | a leader always stores an absent key, so the replacing branch is never taken, and what it stores is cached unless it exceeds the byte bound alone |
| `CacheOrder.OrderedByUse` | internal/analysiscache/cache.go:150-158 | in every reachable state the list is ordered by last use, the latest first |
| `CacheOrder.EvictsLeastRecent` | internal/analysiscache/cache.go:233-250 | whatever a step evicts was last used before everything it keeps |
| `WaveGraphs.WaveGraph.AddNode` | internal/adaptive/wave.go:85-95 | the node is added or replaced, an empty id refused; the graph stays consistent |
| `WaveGraphs.WaveGraph.AddEdge` | internal/adaptive/wave.go:98-109 | the edge is added exactly when both ends exist; adjacency and in-degrees keep agreeing with the edges |
| `WaveGraphs.WaveGraph.constructor` | internal/adaptive/wave.go:75-82 | a new graph is consistent and empty |
| `WaveGraphs.WaveGraph.Roots` | internal/adaptive/wave.go:151-159 | exactly the nodes nothing points at start the queue, at level zero |
| `WaveGraphs.WaveGraph.ByLevel` | internal/adaptive/wave.go:194-202 | every level lists its nodes, each once, and the highest level is attained |
| `WaveGraphs.WaveGraph.Groups` | internal/adaptive/wave.go:211-218 | every named group among the nodes lists its members in order, and nothing else is a group |
| `WaveGraphs.WaveGraph.Scan` | internal/adaptive/wave.go:242-257 | every node gets the cost of the dearest path into it, and a dearest node is kept |
| `WaveGraphs.WaveGraph.Propagate` | internal/adaptive/wave.go:248-253 | a node's cost reaches all its successors |
| `WaveGraphs.WaveGraph.Trace` | internal/adaptive/wave.go:261-271 | following recorded predecessors gives a directed path of exactly that cost |
| `WaveGraphs.WaveGraph.TopoLevels` | internal/adaptive/wave.go:146-182 | levels are found exactly when the graph has no cycle, and a level is the length of the longest chain into the node |
| `WaveGraphs.WaveGraph.Waves` | internal/adaptive/wave.go:188-222 | wave n is exactly the nodes of level n in name order with their fusion groups; no level is skipped and no node left out |
| `WaveGraphs.WavesPartition` | internal/adaptive/wave.go:184-222 | waves partition the nodes and every edge crosses to a later wave |
| `WaveGraphs.WaveGraph.CriticalPath` | internal/adaptive/wave.go:227-272 | a directed path whose cost no directed path exceeds, for all costs; none for an empty or cyclic graph |
| `WaveTheory.StuckCycle` | internal/adaptive/wave.go:178-180 | nodes that all wait for one another contain a cycle |
| `Traversal.Traverse` | internal/adaptive/recursive.go:124-224 | success means every level was loaded with one call each and the result reports exactly them, within all limits; an early stop has made the first levels' calls and its reason is real |
| `Traversal.VisitFrontier` | internal/adaptive/recursive.go:161-217 | one frontier's nodes, edges, markers and next frontier, or the reason to stop; failing fast, success means the loader reported no error for any key |
| `Traversal.FollowEdges` | internal/adaptive/recursive.go:191-216 | one node's edges are counted, repeated children treated by policy, unseen ones appended once |
| `Traversal.IndexResults` | internal/adaptive/recursive.go:240-246 | the last result for each key |
| `Traversal.DedupKeys` | internal/adaptive/recursive.go:227-237 | the first occurrences in source order |
| `Traversal.DepthIsDistance` | internal/adaptive/recursive.go:120-123 | after success a key is loaded at depth d if and only if its shortest distance from the roots along loaded answers is d |
| `Traversal.ReportsReachable` | internal/adaptive/recursive.go:120-123 | the reported keys are exactly those reachable through found, error-free, non-terminal nodes |
| `Traversal.OrderOnce` | internal/adaptive/recursive.go:169 | no key is reported twice |
| `Traversal.OrderLevel` | internal/adaptive/recursive.go:163-169 | a reported node carries the value, presence and error of the last result the loader returned for its key in its own level's call, and absence without error if it returned none |
| `Traversal.AnswerLoaded` | internal/adaptive/recursive.go:240-246 | the same for every key and every call |
| `TraversalOrder.LimitsInForce` | internal/adaptive/recursive.go:44-58 | a limit that is not positive stands for its default |
| `TraversalOrder.LevelOrder` | internal/adaptive/recursive.go:191-216 | within a level a node stands before another only if, wherever the level above names the later one, it names the earlier one before: by an earlier parent or as an earlier child |
| `TraversalOrder.RootOrder` | internal/adaptive/recursive.go:227-237 | the first level follows the roots |
| `TraversalOrder.ReportOrder` | internal/adaptive/recursive.go:163-169 | nodes are reported level by level and within a level in its order |
| `TraversalOrder.MarkersAre` | internal/adaptive/recursive.go:193-211 | the keys marked under the marker policy are exactly those that a node of some level names as a child when they are already known; `TraversalOrder.AgainIs` adds their order and number within a level |
| `TraversalOrder.EdgesCounted` | internal/adaptive/recursive.go:191-197 | the edge count is the number of edges, each child of each followed node counted once |
| `Traversal.CycleFreeLevels` | internal/adaptive/recursive.go:199-203 | success under the error policy for cycles means every edge leads from depth d to d+1 |
| `Histograms.Histogram.ObserveN` | internal/adaptive/histogram.go:85-110 | the totals describe the whole stream, and so do the buckets until one overflows, which happens exactly when the sample's own bucket is missing and there is no room for it; even then no sample is lost from the buckets |
| `Histograms.Histogram.constructor` | internal/adaptive/histogram.go:52-63 | a new histogram is valid and empty, with the default accuracy outside (0,1) |
| `Histograms.Histogram.AddTo` | internal/adaptive/histogram.go:105-109 | the count goes to the sample's own bucket, or to a nearest existing one exactly when the bound is reached, and overflow is recorded exactly then |
| `Histograms.Histogram.AddSums` | internal/adaptive/histogram.go:237-245 | count, sum, zero count and extremes are combined |
| `Histograms.Histogram.MergeBuckets` | internal/adaptive/histogram.go:247-254 | overflow exactly when the two have more indices between them than the bound; otherwise every bucket holds both counts; the total over all buckets is kept in any case |
| `Histograms.Histogram.ScanBuckets` | internal/adaptive/histogram.go:175-188 | the first bucket whose cumulative count reaches the rank decides the estimate |
| `Histograms.Histogram.Quantile` | internal/adaptive/histogram.go:154-189 | 0 for an empty histogram; otherwise, until a bucket overflows, an estimate of a q-quantile of the samples observed |
| `Histograms.Histogram.Merge` | internal/adaptive/histogram.go:227-256 | refused exactly beyond the tolerance; an empty histogram changes nothing; otherwise overflow exactly when one of the two had or they have too many indices between them, without it every bucket holds both counts, and for equal accuracies that is the histogram of both streams |
| `Histograms.Histogram.Absorb` | internal/adaptive/histogram.go:237-255 | the same for a histogram that holds samples |
| `Histograms.ExactWhenEqual` | internal/adaptive/histogram.go:224-233 | adding buckets is exact for every pair of streams if and only if the growth factors are equal |
| `Histograms.CloseAccuraciesMisfile` | internal/adaptive/histogram.go:231-233 | two accuracies within the tolerance and a sample that their merge files under the wrong index |
| `Histograms.Histogram.NearestExisting` | internal/adaptive/histogram.go:114-127 | a populated bucket at least distance |
| `Histograms.QuantileBound` | internal/adaptive/histogram.go:152-153 | the true sample t of the rank satisfies t <= estimate <= gamma * t when it exceeds the zero threshold, and the estimate is 0 otherwise |
| `Histograms.QuantileAccurate` | internal/adaptive/histogram.go:152-166 | for every non-empty stream and every q there is a q-quantile of it, a sample with at least a share q of the samples at or below it and, unless it is the smallest, less than that below it, and the estimate is never below it and at most the growth factor above, or 0 within the zero threshold |
| `Histograms.RankMeans` | internal/adaptive/histogram.go:154-168 | the sample of the rank the code computes is a q-quantile of the stream |
| `Histograms.QuantileUnique` | internal/adaptive/histogram.go:152-153 | a stream has one q-quantile |
| `HistogramTheory.RankExists` | internal/adaptive/histogram.go:164-168 | every rank from one to the number of samples is the rank of some sample |
| `Histograms.RepresentsOne` | internal/adaptive/histogram.go:18-20 | a stream determines its histogram |
| `HistogramTheory.FindIndex` | internal/adaptive/histogram.go:66-68 | the least power of gamma that reaches the value |
| `HistogramTheory.Cumulative` | internal/adaptive/histogram.go:168-174 | the zero bucket and the buckets up to i count exactly the samples within gamma^i |
| `Fairness.FairScheduler.Admit` | internal/adaptive/fairness.go:113-132 | admitted if and only if both quotas leave room; only the class's counters change |
| `FairLedger.StateMeans` | internal/adaptive/fairness.go:100-109 | a class not seen before has weight one, no priority, share or quota, and empty counters |
| `FairLedger.AdmitMeans` | internal/adaptive/fairness.go:113-132 | admitted exactly if there is room under both quotas, and a refusal names the quota that refused, the number before the size |
| `FairLedger.QuotaKept` | internal/adaptive/fairness.go:113-132 | over every run of admissions, services and completions a class that starts within its quota of queued requests never exceeds it |
| `FairLedger.Ledger` | internal/adaptive/fairness.go:113-132 | over every run and for every class queued is admitted less drained, active is started less finished, served and rejected count exactly those calls, and the policy never changes |
| `Fairness.FairScheduler.Serve` | internal/adaptive/fairness.go:233-247 | the class's counters after one service |
| `Fairness.FairScheduler.constructor` | internal/adaptive/fairness.go:72-90 | the classes are the configured names, each with the last policy given for it, a positive weight and no service yet |
| `Fairness.FairScheduler.ClassFor` | internal/adaptive/fairness.go:100-109 | an unknown class is created with weight one and filed in name order |
| `Fairness.FairScheduler.Complete` | internal/adaptive/fairness.go:250-255 | one active item fewer, never below zero |
| `Fairness.FairScheduler.CountServed` | internal/adaptive/fairness.go:277-283 | the total served over all classes |
| `Fairness.FairScheduler.WeightedPick` | internal/adaptive/fairness.go:176-194 | finds a class exactly when one is visible, and then one of highest priority and least weighted service among the named ones; over all classes exactly when such a class has a name |
| `Fairness.FairScheduler.ReservedPick` | internal/adaptive/fairness.go:151-172 | the named class furthest below its reserved share, exactly if some named class is below it |
| `Fairness.FairScheduler.Next` | internal/adaptive/fairness.go:137-148 | reserved shares first, then the weighted pick, with or without a class of empty name |
| `Fairness.PickExact` | internal/adaptive/fairness.go:174-194 | when the weighted pick is right, for every set of classes |
| `Fairness.PickVisible` | internal/adaptive/fairness.go:174-194 | the scan finds a class if and only if one is visible, and then the right one among the named |
| `Fairness.EmptyNameHidesBacklog` | internal/adaptive/fairness.go:177-193 | two backlogged classes, one without a name, where the pick finds none |
| `Fairness.LowPriorityHidesBacklog` | internal/adaptive/fairness.go:179-193 | a backlogged class of priority below -2^30 that the pick does not find |
| `Fairness.ServiceShare` | internal/adaptive/fairness.go:174-194 | after N rounds of the scan's own picks with the named classes backlogged at one priority, (served + 1) * W >= N * weight for each of them, none leads another by more than one weighted turn, and a class without a name is never served |
| `Fairness.ServiceShareOfAll` | internal/adaptive/fairness.go:174-194 | over all classes the two bounds hold exactly when there is no class without a name or nothing was due to it yet |
| `Fairness.UnnamedStarves` | internal/adaptive/fairness.go:177-193 | a run of three rounds in which a class without a name misses its share |
| `SqlSynth.SynthesizeExactKey` | internal/adapter/sqlsynth.go:58-147 | a plan is produced exactly for acceptable inputs, and it is the rewriting of the query |
| `SqlSynth.BuildPlan` | internal/adapter/sqlsynth.go:84-128 | the loops qualify the projection and pair every key column with its unnested array |
| `SqlSynth.ValidateKeyPredicates` | internal/adapter/sqlparse.go:458-470 | accepts exactly the keys whose placeholders are $1 to $n, each once, on the base relation |
| `SqlSynth.RequestIsScalar` | internal/adapter/sqlsynth.go:105-137 | for every database, the plan's rows for a request are the scalar query's rows for its key when a base row matches; otherwise none or one row of NULLs, and exactly when |
| `SqlSynth.BatchIsScalars` | internal/adapter/sqlsynth.go:55-57 | for every database and key list the batch query returns the scalar results request by request, in order |
| `SqlSynth.RequestCell` | internal/adapter/sqlsynth.go:100-104 | each request carries its own key components, whatever order the placeholders were written in |
| `SqlMeaning.SafeTypeMeans` | internal/adapter/sqlsynth.go:186-204 | a type name is safe exactly if the parts between its dots are identifiers |
| `SqlMeaning.ShortcutWrittenOut` | internal/adapter/sqlsynth.go:60-66 | giving one key by the shortcut fields is giving it as the only key predicate and type; otherwise nothing is filled in |
| `SqlMeaning.PlanMeans` | internal/adapter/sqlsynth.go:84-134 | relation, join and filters are the query's; columns keep name and alias, an unqualified one being qualified with the relation's alias or name; limits that are not positive become the defaults |
| `SqlMeaning.WhereKeysMeans` | internal/adapter/sqlsynth.go:105-137 | the scalar query keeps exactly the tuples with the requested non-null keys and NULL exactly where a filter asks for it, in order |
| `SqlMeaning.PartnersMeans` | internal/adapter/sqlsynth.go:124-134 | a row joins exactly the partner rows whose ON columns hold the same non-null value, in order |
| `SqlMeaning.JoinOneMeans` | internal/adapter/sqlsynth.go:124-134 | without a partner an outer join keeps the row with NULLs and an inner join drops it |
| `SqlTypes.PlanCasts` | internal/adapter/sqlsynth.go:97-104 | the array bound to the placeholder of a key predicate is cast to the type declared for that predicate |
| `SqlTypes.TypedBatchIsScalars` | internal/adapter/sqlsynth.go:97-104 | whatever casting to a type means, the batch query on uncast keys returns the scalar results for the keys cast component by component to their declared types |
| `SqlTypes.CoercedExists` | internal/adapter/sqlsynth.go:97-104 | every key has its cast, so that result covers every list of keys |

## Left out

- The caller's side of a submission (channel selects in `Do`), engine and scope lifecycle, goroutines, hooks, counters, events and panic recovery: they are environment steps here.
- Liveness of flush, drain and close: only what their answers mean is proved.
- The number of waiters per partition: it is modelled as the code keeps it, and no bound is claimed, because delivery does not lower it and joining skips the check.
- CoordProperties.CancelledWithLastCaller: states the property without deduplication only; with it neither direction holds, as the two states in `CoordCases` show.
- Changes of the adaptive settings in the middle of a turn: they take effect between turns.
- CoordBarriers.SatisfiedMeans: speaks of barriers numbered below 2^64 - 1, the largest number a 64-bit counter holds and the start value of a batch's least number.
- CoordBarriers.BarrierFate: the same.
- CoordBarriers.KeptWaits: the same.
- The wrap-around of 64-bit counters, and rounding and overflow of floating-point arithmetic.
- Histograms.Histogram.AddTo: leaves open which of two equally near buckets takes an overflowing count, where the code follows map order.
- HistogramTheory.FindIndex: searches for the power instead of taking the ceiling of a quotient of logarithms, which is the same index over the reals.
- Deficit round robin, starvation detection and the time fields of the fair scheduler; histogram CDF and serialization.
- Fairness.ServiceShare: covers contended named classes without reserved shares; nothing is claimed for the mixture of reserved shares and weights.
- The disk tier of the analysis cache, its key digest and its statistics beyond the counters in `Stats`; cloning of payloads, which are values here.
- Tokenizing and parsing SQL, the text of the emitted query, row decoding, chunking and drivers; clashes of user names with `bw_requested` and its columns.
- Graph rendering, diagnostics texts, the adaptive controller, profiles, the other adapters, the command line and the program analyses.
