/**
 Every interleaving of lookups on one analysis cache. A lookup is a thread that moves from one
 critical section to the next; what the disk and compute return is up to the environment.
 */
module CacheRuns {
  import opened Seqs
  import opened AnalysisCache

  datatype Source = Memory | Disk | Compute | SharedBy(call: nat)

  datatype Reply = InvalidKey | ContextDone | Reply(result: Outcome, source: Source)

  datatype Pc =
    | Waiting(call: nat)
    | Leading(call: nat)
    | Computing(call: nat)
    | Publishing(call: nat, result: Outcome, source: Source)
    | Returned(reply: Reply)

  datatype Thread = Thread(key: Key, pc: Pc)

  /** `produced` records which payloads the disk or compute ever yielded for which key. */
  datatype State = State(sh: Shared, threads: map<nat, Thread>, produced: set<(Key, Payload)>)

  const INIT := State(EMPTY, map[], {})

  datatype Event =
    | Enter(t: nat, key: Key)
    | DiskHit(t: nat, value: Payload)
    | DiskMiss(t: nat)
    | Computed(t: nat, result: Outcome)
    | Publish(t: nat)
    | Wake(t: nat)
    | GiveUp(t: nat)

  predicate Enabled(s: State, e: Event) {
    if e.Enter? then e.t !in s.threads
    else
      && e.t in s.threads
      && var pc := s.threads[e.t].pc;
      match e
      case Enter(_, _) => false
      case DiskHit(_, _) => pc.Leading?
      case DiskMiss(_) => pc.Leading?
      case Computed(_, _) => pc.Computing? && pc.call in s.sh.calls
      case Publish(_) => pc.Publishing? && pc.call in s.sh.calls
      case Wake(_) => pc.Waiting? && pc.call in s.sh.calls && s.sh.calls[pc.call].result.Some?
      case GiveUp(_) => pc.Waiting?
  }

  function Move(s: State, t: nat, sh: Shared, pc: Pc): (s': State)
    requires t in s.threads
  {
    s.(sh := sh, threads := s.threads[t := s.threads[t].(pc := pc)])
  }

  function Arrive(s: State, t: nat, key: Key): (s': State) {
    if !ValidKey(key) then s.(threads := s.threads[t := Thread(key, Returned(InvalidKey))])
    else
      var (sh, r) := AnalysisCache.Enter(s.sh, t, key);
      var pc := match r
        case Hit(v) => Returned(Reply(Value(v), Memory))
        case Joined(id) => Waiting(id)
        case Leads(id) => Leading(id);
      s.(sh := sh, threads := s.threads[t := Thread(key, pc)])
  }

  function Produced(s: State, t: nat, r: Outcome): (p: set<(Key, Payload)>)
    requires t in s.threads
  {
    if r.Value? then s.produced + {(s.threads[t].key, r.v)} else s.produced
  }

  function Counted(sh: Shared, id: nat): (r: Shared)
    requires id in sh.calls
  {
    sh.(calls := sh.calls[id := sh.calls[id].(computes := sh.calls[id].computes + 1)])
  }

  function Next(cfg: Config, s: State, e: Event): (s': State)
    requires Enabled(s, e)
  {
    match e
    case Enter(t, key) => Arrive(s, t, key)
    case DiskHit(t, v) =>
      Move(s, t, StoreDiskHit(cfg, s.sh, s.threads[t].key, v), Publishing(s.threads[t].pc.call, Value(v), Disk))
      .(produced := Produced(s, t, Value(v)))
    case DiskMiss(t) =>
      Move(s, t, s.sh.(stats := s.sh.stats.(misses := s.sh.stats.misses + 1)), Computing(s.threads[t].pc.call))
    case Computed(t, r) =>
      var sh := Counted(s.sh, s.threads[t].pc.call);
      Move(s, t, if r.Value? then Insert(cfg, sh, s.threads[t].key, r.v) else sh,
        Publishing(s.threads[t].pc.call, r, Compute))
      .(produced := Produced(s, t, r))
    case Publish(t) =>
      var pc := s.threads[t].pc;
      Move(s, t, AnalysisCache.Publish(s.sh, s.threads[t].key, pc.call, pc.result),
        Returned(Reply(pc.result, pc.source)))
    case Wake(t) =>
      var id := s.threads[t].pc.call;
      var r := s.sh.calls[id].result.value;
      Move(s, t, if r.Value? then s.sh.(stats := s.sh.stats.(hits := s.sh.stats.hits + 1)) else s.sh,
        Returned(Reply(r, SharedBy(id))))
    case GiveUp(t) => Move(s, t, s.sh, Returned(ContextDone))
  }

  // ---------------------------------------------------------------- the invariant

  ghost predicate ListOk(cfg: Config, sh: Shared) {
    Agree(sh) && Fits(cfg, sh.lru)
  }

  predicate Leader(pc: Pc, id: nat) {
    !pc.Waiting? && !pc.Returned? && pc.call == id
  }

  /** Thread `t` is the one leader of the flight registered for its key. */
  ghost predicate Leading1(s: State, t: nat, id: nat)
    requires t in s.threads
  {
    && id in s.sh.calls && s.sh.calls[id].leader == t && s.sh.calls[id].key == s.threads[t].key
       && s.sh.calls[id].result.None?
    && s.threads[t].key in s.sh.inflight && s.sh.inflight[s.threads[t].key] == id
  }

  ghost predicate ThreadOk(s: State, t: nat)
    requires t in s.threads
  {
    var key := s.threads[t].key;
    match s.threads[t].pc
    case Waiting(id) => id in s.sh.calls && s.sh.calls[id].key == key
    case Leading(id) => Leading1(s, t, id) && key !in s.sh.items && s.sh.calls[id].computes == 0
    case Computing(id) => Leading1(s, t, id) && key !in s.sh.items && s.sh.calls[id].computes == 0
    case Publishing(id, r, src) =>
      && Leading1(s, t, id) && (r.Value? ==> (key, r.v) in s.produced)
      && ((src == Disk && r.Value? && s.sh.calls[id].computes == 0) || (src == Compute && s.sh.calls[id].computes == 1))
    case Returned(reply) =>
      reply.Reply? ==>
        && (reply.result.Value? ==> (key, reply.result.v) in s.produced)
        && (reply.source.SharedBy? ==>
              var id := reply.source.call;
              id in s.sh.calls && s.sh.calls[id].key == key && s.sh.calls[id].result == Some(reply.result))
  }

  /** A flight is led until it is published, and then its leader returned the published result. */
  ghost predicate CallOk(s: State, id: nat)
    requires id in s.sh.calls
  {
    var c := s.sh.calls[id];
    && id < s.sh.nextCall && c.leader in s.threads && s.threads[c.leader].key == c.key
    && match c.result
    case None => Leader(s.threads[c.leader].pc, id)
    case Some(r) =>
      || (c.computes == 0 && s.threads[c.leader].pc == Returned(Reply(r, Disk)))
      || (c.computes == 1 && s.threads[c.leader].pc == Returned(Reply(r, Compute)))
  }

  ghost predicate FlightOk(s: State, k: Key)
    requires k in s.sh.inflight
  {
    var id := s.sh.inflight[k];
    id in s.sh.calls && s.sh.calls[id].key == k && s.sh.calls[id].result.None?
  }

  ghost predicate ItemsOk(items: map<Key, Entry>, produced: set<(Key, Payload)>) {
    forall k :: k in items ==> (k, items[k].value) in produced
  }

  ghost predicate ThreadsOk(s: State) {
    forall t :: t in s.threads ==> ThreadOk(s, t)
  }

  ghost predicate CallsOk(s: State) {
    forall id :: id in s.sh.calls ==> CallOk(s, id)
  }

  ghost predicate FlightsOk(s: State) {
    forall k :: k in s.sh.inflight ==> FlightOk(s, k)
  }

  ghost predicate Inv(cfg: Config, s: State) {
    ListOk(cfg, s.sh) && ItemsOk(s.sh.items, s.produced) && ThreadsOk(s) && CallsOk(s) && FlightsOk(s)
  }

  ghost predicate Sane(cfg: Config) {
    cfg.maxEntries >= 1 && cfg.maxBytes >= 1
  }

  // ---------------------------------------------------------------- the list under each step

  /** What a step does to the flights; the cached keys may only grow by the acting thread's own. */
  lemma InsertFields(cfg: Config, sh: Shared, key: Key, v: Payload)
    requires Sane(cfg) && ListOk(cfg, sh) && key !in sh.items
    ensures var r := Insert(cfg, sh, key, v);
            && ListOk(cfg, r) && r.calls == sh.calls && r.inflight == sh.inflight && r.nextCall == sh.nextCall
            && (forall k :: k in r.items ==> k == key || k in sh.items)
            && (forall k :: k in r.items ==> r.items[k].value == if k == key then v else sh.items[k].value)
  {
    InsertKeeps(cfg, sh, key, v);
    hide Evict, Total, Fits;
    var r := Insert(cfg, sh, key, v);
    forall k | k in r.items ensures r.items[k].value == if k == key then v else sh.items[k].value {
      if |v.bytes| <= cfg.maxBytes {
        InsertedEntry(sh, Entry(key, v, |v.bytes|), r, k);
      }
    }
  }

  lemma InsertedEntry(sh: Shared, e: Entry, r: Shared, k: Key)
    requires Agree(sh) && Agree(r) && r.lru <= [e] + sh.lru && k in r.items && e.key !in sh.items
    ensures k == e.key ==> r.items[k] == e
    ensures k != e.key ==> k in sh.items && r.items[k] == sh.items[k]
  {
    hide Total, Sized, Index;
    var i := IndexOnly(r.lru, k);
    IndexAt(r.lru, i);
    if i > 0 {
      assert r.lru[i] == sh.lru[i - 1];
      IndexAt(sh.lru, i - 1);
    }
  }

  lemma TouchFields(cfg: Config, sh: Shared, key: Key, stats: Stats)
    requires ListOk(cfg, sh) && key in sh.items
    ensures ListOk(cfg, Touch(sh, key).(stats := stats)) && Touch(sh, key).items == sh.items
  {
    TouchKeeps(cfg, sh, key);
  }

  /** Inserting for a leader leaves every other leader's key absent, since their keys differ. */
  lemma OtherLeader(s: State, t: nat, u: nat, id: nat, jd: nat)
    requires t in s.threads && u in s.threads && t != u && Leading1(s, t, id) && Leading1(s, u, jd)
    ensures s.threads[t].key != s.threads[u].key
  {
  }

  // ---------------------------------------------------------------- the steps

  /** A leader that stays leader: only its own call's compute count, the list and the record of payloads change. */
  ghost predicate LeaderMove(s: State, s': State, t: nat, id: nat) {
    && t in s.threads && Leader(s.threads[t].pc, id) && id in s.sh.calls
    && t in s'.threads && s'.threads == s.threads[t := s'.threads[t]] && s'.threads[t].key == s.threads[t].key
    && Leader(s'.threads[t].pc, id) && s.produced <= s'.produced
    && s'.sh.inflight == s.sh.inflight && s'.sh.nextCall == s.sh.nextCall
    && id in s'.sh.calls && s'.sh.calls == s.sh.calls[id := s.sh.calls[id].(computes := s'.sh.calls[id].computes)]
    && (forall k :: k in s'.sh.items ==> k == s.threads[t].key || k in s.sh.items)
  }

  lemma LeaderThread(s: State, s': State, t: nat, id: nat, u: nat)
    requires LeaderMove(s, s', t, id) && u in s.threads && u != t && ThreadOk(s, u) && ThreadOk(s, t)
    ensures ThreadOk(s', u)
  {
    var pc := s.threads[u].pc;
    if !pc.Waiting? && !pc.Returned? {
      OtherLeader(s, t, u, id, pc.call);
    }
  }

  lemma LeaderCall(s: State, s': State, t: nat, id: nat, n: nat)
    requires LeaderMove(s, s', t, id) && n in s.sh.calls && CallOk(s, n) && ThreadOk(s, t)
    ensures CallOk(s', n)
  {
  }

  lemma LeaderStep(cfg: Config, s: State, s': State, t: nat, id: nat)
    requires Inv(cfg, s) && LeaderMove(s, s', t, id)
    requires ListOk(cfg, s'.sh) && ItemsOk(s'.sh.items, s'.produced) && ThreadOk(s', t)
    ensures Inv(cfg, s')
  {
    hide ListOk, ItemsOk, ThreadOk, CallOk;
    forall u | u in s'.threads ensures ThreadOk(s', u) {
      if u != t { LeaderThread(s, s', t, id, u); }
    }
    forall n | n in s'.sh.calls ensures CallOk(s', n) {
      LeaderCall(s, s', t, id, n);
    }
  }

  lemma DiskHitKeeps(cfg: Config, s: State, t: nat, v: Payload)
    requires Sane(cfg) && Inv(cfg, s) && Enabled(s, DiskHit(t, v))
    ensures Inv(cfg, Next(cfg, s, DiskHit(t, v)))
  {
    var s' := Next(cfg, s, DiskHit(t, v));
    assert ThreadOk(s, t);
    var sh := s.sh.(stats := s.sh.stats.(hits := s.sh.stats.hits + 1, diskHits := s.sh.stats.diskHits + 1));
    InsertFields(cfg, sh, s.threads[t].key, v);
    hide ListOk, Insert, CallOk, ThreadsOk, CallsOk, FlightsOk;
    LeaderStep(cfg, s, s', t, s.threads[t].pc.call);
  }

  lemma DiskMissKeeps(cfg: Config, s: State, t: nat)
    requires Inv(cfg, s) && Enabled(s, DiskMiss(t))
    ensures Inv(cfg, Next(cfg, s, DiskMiss(t)))
  {
    assert ThreadOk(s, t);
    var s' := Next(cfg, s, DiskMiss(t));
    assert s'.sh.calls == s.sh.calls[s.threads[t].pc.call := s.sh.calls[s.threads[t].pc.call]];
    hide Index, Total, UniqueKeys, Sized, ThreadsOk, CallsOk, FlightsOk;
    LeaderStep(cfg, s, s', t, s.threads[t].pc.call);
  }

  lemma ComputedKeeps(cfg: Config, s: State, t: nat, r: Outcome)
    requires Sane(cfg) && Inv(cfg, s) && Enabled(s, Computed(t, r))
    ensures Inv(cfg, Next(cfg, s, Computed(t, r)))
  {
    hide Arrive, StoreDiskHit, AnalysisCache.Publish;
    var s' := Next(cfg, s, Computed(t, r));
    assert ThreadOk(s, t);
    var sh := Counted(s.sh, s.threads[t].pc.call);
    assert ListOk(cfg, sh);
    if r.Value? {
      InsertFields(cfg, sh, s.threads[t].key, r.v);
    }
    hide ListOk, Insert, CallOk, ThreadsOk, CallsOk, FlightsOk;
    LeaderStep(cfg, s, s', t, s.threads[t].pc.call);
  }

  lemma PublishThread(s: State, t: nat, u: nat)
    requires Enabled(s, Publish(t)) && u in s.threads && u != t && ThreadOk(s, u) && ThreadOk(s, t)
    ensures ThreadOk(Move(s, t,
      AnalysisCache.Publish(s.sh, s.threads[t].key, s.threads[t].pc.call, s.threads[t].pc.result),
                          Returned(Reply(s.threads[t].pc.result, s.threads[t].pc.source))), u)
  {
    var pc := s.threads[u].pc;
    if !pc.Waiting? && !pc.Returned? {
      OtherLeader(s, t, u, s.threads[t].pc.call, pc.call);
    }
  }

  lemma PublishKeeps(cfg: Config, s: State, t: nat)
    requires Inv(cfg, s) && Enabled(s, Publish(t))
    ensures Inv(cfg, Next(cfg, s, Publish(t)))
  {
    hide Insert, StoreDiskHit, Arrive, Counted;
    var s' := Next(cfg, s, Publish(t));
    assert ThreadOk(s, t);
    var id := s.threads[t].pc.call;
    assert ListOk(cfg, s'.sh);
    forall k | k in s'.sh.inflight ensures FlightOk(s', k) {
      assert FlightOk(s, k);
    }
    forall n | n in s'.sh.calls ensures CallOk(s', n) {
      assert CallOk(s, n);
    }
    assert ThreadOk(s', t);
    forall u | u in s'.threads ensures ThreadOk(s', u) {
      if u != t {
        assert ThreadOk(s, u);
        PublishThread(s, t, u);
      }
    }
  }

  /** A waiter returns: nothing shared changes but the statistics. */
  lemma WaiterKeeps(cfg: Config, s: State, t: nat, stats: Stats, reply: Reply)
    requires Inv(cfg, s) && t in s.threads && s.threads[t].pc.Waiting?
    requires var s' := Move(s, t, s.sh.(stats := stats), Returned(reply)); ThreadOk(s', t)
    ensures Inv(cfg, Move(s, t, s.sh.(stats := stats), Returned(reply)))
  {
    var s' := Move(s, t, s.sh.(stats := stats), Returned(reply));
    assert ListOk(cfg, s'.sh);
    hide ListOk, ItemsOk;
    forall u | u in s'.threads ensures ThreadOk(s', u) {
      if u != t { assert ThreadOk(s, u); }
    }
    forall n | n in s'.sh.calls ensures CallOk(s', n) {
      assert CallOk(s, n);
    }
    forall k | k in s'.sh.inflight ensures FlightOk(s', k) {
      assert FlightOk(s, k);
    }
  }

  /** A published result is a payload of the key its waiters asked for. */
  lemma WakeReply(s: State, t: nat, sh: Shared)
    requires Enabled(s, Wake(t)) && sh.calls == s.sh.calls
    requires ThreadOk(s, t) && CallOk(s, s.threads[t].pc.call) && ThreadOk(s, s.sh.calls[s.threads[t].pc.call].leader)
    ensures var id := s.threads[t].pc.call;
            ThreadOk(Move(s, t, sh, Returned(Reply(s.sh.calls[id].result.value, SharedBy(id)))), t)
  {
  }

  lemma LeaderKnown(s: State, id: nat)
    requires id in s.sh.calls && CallOk(s, id)
    ensures s.sh.calls[id].leader in s.threads
  {
  }

  lemma WakeKeeps(cfg: Config, s: State, t: nat)
    requires Inv(cfg, s) && Enabled(s, Wake(t))
    ensures Inv(cfg, Next(cfg, s, Wake(t)))
  {
    hide Insert, StoreDiskHit, Arrive, Counted, AnalysisCache.Publish, CallOk;
    var id := s.threads[t].pc.call;
    var r := s.sh.calls[id].result.value;
    var stats := if r.Value? then s.sh.stats.(hits := s.sh.stats.hits + 1) else s.sh.stats;
    LeaderKnown(s, id);
    hide ThreadOk, ListOk, ItemsOk, FlightsOk;
    WakeReply(s, t, s.sh.(stats := stats));
    hide ThreadsOk, CallsOk;
    WaiterKeeps(cfg, s, t, stats, Reply(r, SharedBy(id)));
  }

  /** A new thread whose arrival changes at most the order of the list. */
  lemma ArriveQuiet(cfg: Config, s: State, t: nat, thread: Thread, sh: Shared)
    requires Inv(cfg, s) && t !in s.threads && ListOk(cfg, sh)
    requires sh.items == s.sh.items && sh.calls == s.sh.calls && sh.inflight == s.sh.inflight
    requires sh.nextCall == s.sh.nextCall
    requires thread.pc.Waiting? || thread.pc.Returned?
    requires ThreadOk(s.(sh := sh, threads := s.threads[t := thread]), t)
    ensures Inv(cfg, s.(sh := sh, threads := s.threads[t := thread]))
  {
    var s' := s.(sh := sh, threads := s.threads[t := thread]);
    hide ListOk, ItemsOk;
    forall u | u in s'.threads ensures ThreadOk(s', u) {
      if u != t { assert ThreadOk(s, u); }
    }
    forall n | n in s'.sh.calls ensures CallOk(s', n) {
      assert CallOk(s, n);
    }
    forall k | k in s'.sh.inflight ensures FlightOk(s', k) {
      assert FlightOk(s, k);
    }
  }

  lemma ArriveLeads(cfg: Config, s: State, t: nat, key: Key)
    requires Inv(cfg, s) && t !in s.threads && ValidKey(key) && key !in s.sh.items && key !in s.sh.inflight
    ensures Inv(cfg, Arrive(s, t, key))
  {
    var s' := Arrive(s, t, key);
    var id := s.sh.nextCall;
    assert id in s.sh.calls ==> CallOk(s, id);
    assert ListOk(cfg, s'.sh) && ThreadOk(s', t) && CallOk(s', id) && FlightOk(s', key);
    hide ListOk, ItemsOk, ValidKey, Arrive, ThreadOk, CallOk, FlightOk;
    forall u | u in s'.threads ensures ThreadOk(s', u) {
      if u != t { LeadsThread(s, t, key, u); }
    }
    forall n | n in s'.sh.calls ensures CallOk(s', n) {
      if n != id { LeadsCall(s, t, key, n); }
    }
    forall k | k in s'.sh.inflight ensures FlightOk(s', k) {
      if k != key { LeadsFlight(s, t, key, k); }
    }
  }

  lemma LeadsThread(s: State, t: nat, key: Key, u: nat)
    requires t !in s.threads && ValidKey(key) && key !in s.sh.items && key !in s.sh.inflight
    requires s.sh.nextCall !in s.sh.calls
    requires u in Arrive(s, t, key).threads && u != t && (u in s.threads ==> ThreadOk(s, u))
    ensures ThreadOk(Arrive(s, t, key), u)
  {
    hide ValidKey;
  }

  lemma LeadsCall(s: State, t: nat, key: Key, n: nat)
    requires t !in s.threads && ValidKey(key) && key !in s.sh.items && key !in s.sh.inflight
    requires s.sh.nextCall !in s.sh.calls
    requires n in Arrive(s, t, key).sh.calls && n != s.sh.nextCall && (n in s.sh.calls ==> CallOk(s, n))
    ensures CallOk(Arrive(s, t, key), n)
  {
    hide ValidKey;
  }

  lemma LeadsFlight(s: State, t: nat, key: Key, k: Key)
    requires t !in s.threads && ValidKey(key) && key !in s.sh.items && key !in s.sh.inflight
    requires s.sh.nextCall !in s.sh.calls
    requires k in Arrive(s, t, key).sh.inflight && k != key && (k in s.sh.inflight ==> FlightOk(s, k))
    ensures FlightOk(Arrive(s, t, key), k)
  {
    hide ValidKey;
  }

  lemma EnterKeeps(cfg: Config, s: State, t: nat, key: Key)
    requires Inv(cfg, s) && t !in s.threads
    ensures Inv(cfg, Arrive(s, t, key))
  {
    hide ListOk, ThreadsOk, CallsOk, ValidKey;
    var s' := Arrive(s, t, key);
    if !ValidKey(key) {
      ArriveQuiet(cfg, s, t, Thread(key, Returned(InvalidKey)), s.sh);
    } else if key in s.sh.items {
      TouchFields(cfg, s.sh, key, s.sh.stats.(hits := s.sh.stats.hits + 1));
      ArriveQuiet(cfg, s, t, s'.threads[t], s'.sh);
    } else if key in s.sh.inflight {
      assert FlightOk(s, key);
      ArriveQuiet(cfg, s, t, Thread(key, Waiting(s.sh.inflight[key])), s.sh);
    } else {
      ArriveLeads(cfg, s, t, key);
    }
  }

  /** Every step of every thread keeps the invariant. */
  lemma StepKeeps(cfg: Config, s: State, e: Event)
    requires Sane(cfg) && Inv(cfg, s) && Enabled(s, e)
    ensures Inv(cfg, Next(cfg, s, e))
  {
    match e
    case Enter(t, key) => EnterKeeps(cfg, s, t, key);
    case DiskHit(t, v) => DiskHitKeeps(cfg, s, t, v);
    case DiskMiss(t) => DiskMissKeeps(cfg, s, t);
    case Computed(t, r) => ComputedKeeps(cfg, s, t, r);
    case Publish(t) => PublishKeeps(cfg, s, t);
    case Wake(t) => WakeKeeps(cfg, s, t);
    case GiveUp(t) => WaiterKeeps(cfg, s, t, s.sh.stats, ContextDone);
  }

  // ---------------------------------------------------------------- every run

  ghost predicate IsRun(cfg: Config, states: seq<State>, events: seq<Event>) {
    && |states| == |events| + 1 && states[0] == INIT
    && forall i :: 0 <= i < |events| ==>
       Enabled(states[i], events[i]) && states[i + 1] == Next(cfg, states[i], events[i])
  }

  lemma {:induction false} RunInvariant(config: Config, states: seq<State>, events: seq<Event>, i: nat)
    requires IsRun(Normalized(config), states, events) && i < |states|
    ensures Inv(Normalized(config), states[i])
  {
    hide Next, Enabled;
    if i == 0 {
      assert Inv(Normalized(config), INIT);
    } else {
      hide Inv;
      RunInvariant(config, states, events, i - 1);
      StepKeeps(Normalized(config), states[i - 1], events[i - 1]);
    }
  }

  /** The bounds, the agreement of map, list and byte count, and the provenance of every cached payload. */
  lemma BoundsHold(config: Config, states: seq<State>, events: seq<Event>, i: nat)
    requires IsRun(Normalized(config), states, events) && i < |states|
    ensures var sh := states[i].sh;
            && |sh.items| == |sh.lru| <= Normalized(config).maxEntries
            && sh.bytes == Total(sh.lru) <= Normalized(config).maxBytes
            && (forall k :: k in sh.items <==> exists j :: 0 <= j < |sh.lru| && sh.lru[j].key == k)
            && (forall j :: 0 <= j < |sh.lru| ==> sh.lru[j].key in sh.items && sh.items[sh.lru[j].key] == sh.lru[j])
            && (forall k :: k in sh.items ==> (k, sh.items[k].value) in states[i].produced)
  {
    hide Next, Enabled, IsRun, Index, Total, Sized;
    RunInvariant(config, states, events, i);
    var sh := states[i].sh;
    IndexSize(sh.lru);
    forall j | 0 <= j < |sh.lru| ensures sh.lru[j].key in sh.items && sh.items[sh.lru[j].key] == sh.lru[j] {
      IndexAt(sh.lru, j);
    }
    forall k | k in sh.items ensures exists j :: 0 <= j < |sh.lru| && sh.lru[j].key == k {
      var j := IndexOnly(sh.lru, k);
    }
  }

  /** At most one thread leads a key. */
  lemma OneLeader(config: Config, states: seq<State>, events: seq<Event>, i: nat, t: nat, u: nat)
    requires IsRun(Normalized(config), states, events) && i < |states|
    requires var s := states[i];
             t in s.threads && u in s.threads && s.threads[t].key == s.threads[u].key
             && !s.threads[t].pc.Waiting? && !s.threads[t].pc.Returned? && !s.threads[u].pc.Waiting?
                && !s.threads[u].pc.Returned?
    ensures t == u
  {
    RunInvariant(config, states, events, i);
    hide IsRun;
    var s := states[i];
    assert ThreadOk(s, t) && ThreadOk(s, u);
    if t != u {
      OtherLeader(s, t, u, s.threads[t].pc.call, s.threads[u].pc.call);
    }
  }

  /**
   A caller that waited returns what the leader of the very call it joined returned, and that leader,
   with the same key, had it from the disk or from the one run of compute.
   */
  lemma WaiterGetsLeaders(config: Config, states: seq<State>, events: seq<Event>, i: nat, t: nat)
    requires IsRun(Normalized(config), states, events) && i < |states|
    requires var s := states[i];
             t in s.threads && s.threads[t].pc.Returned? && s.threads[t].pc.reply.Reply?
               && s.threads[t].pc.reply.source.SharedBy?
    ensures var s, r, id := states[i], states[i].threads[t].pc.reply.result, states[i].threads[t].pc.reply.source.call;
            && id in s.sh.calls && s.sh.calls[id].leader in s.threads
            && var leader := s.threads[s.sh.calls[id].leader];
               && leader.key == s.threads[t].key
               && (leader.pc == Returned(Reply(r, Disk)) || leader.pc == Returned(Reply(r, Compute)))
  {
    RunInvariant(config, states, events, i);
    hide IsRun;
    var s := states[i];
    assert ThreadOk(s, t);
    var id := s.threads[t].pc.reply.source.call;
    assert CallOk(s, id);
    assert s.sh.calls[id].leader in s.threads;
  }

  /** Compute runs at most once per flight, and a caller still waiting has a leader still at work. */
  lemma ComputesOnce(config: Config, states: seq<State>, events: seq<Event>, i: nat, id: nat)
    requires IsRun(Normalized(config), states, events) && i < |states| && id in states[i].sh.calls
    ensures states[i].sh.calls[id].computes <= 1
    ensures states[i].sh.calls[id].result.None? ==>
              var u := states[i].sh.calls[id].leader; u in states[i].threads && Leader(states[i].threads[u].pc, id)
  {
    RunInvariant(config, states, events, i);
    hide IsRun;
    var s := states[i];
    assert CallOk(s, id) && ThreadOk(s, s.sh.calls[id].leader);
  }

  /** No reply carries a payload that was not loaded or computed for its own key. */
  lemma RepliesProduced(config: Config, states: seq<State>, events: seq<Event>, i: nat, t: nat)
    requires IsRun(Normalized(config), states, events) && i < |states| && t in states[i].threads
    requires states[i].threads[t].pc.Returned? && states[i].threads[t].pc.reply.Reply?
    requires states[i].threads[t].pc.reply.result.Value?
    ensures (states[i].threads[t].key, states[i].threads[t].pc.reply.result.v) in states[i].produced
  {
    RunInvariant(config, states, events, i);
    hide IsRun;
    assert ThreadOk(states[i], t);
  }

  /**
   Whenever a leader stores a value, its key is absent, so the replacing branch is never taken; a
   value within the byte bound is then cached at the front, and a larger one changes nothing.
   */
  lemma StoresFresh(config: Config, states: seq<State>, events: seq<Event>, i: nat)
    requires IsRun(Normalized(config), states, events) && i < |events|
    requires events[i].DiskHit? || (events[i].Computed? && events[i].result.Value?)
    ensures var t := events[i].t; var v := if events[i].DiskHit? then events[i].value else events[i].result.v;
            && t in states[i].threads && var k := states[i].threads[t].key;
            && k !in states[i].sh.items
            && (|v.bytes| <= Normalized(config).maxBytes ==>
                  states[i + 1].sh.lru != [] && states[i + 1].sh.lru[0] == Entry(k, v, |v.bytes|)
                    && k in states[i + 1].sh.items)
            && (|v.bytes| > Normalized(config).maxBytes ==>
              states[i + 1].sh.lru == states[i].sh.lru && states[i + 1].sh.items == states[i].sh.items)
  {
    var cfg := Normalized(config);
    RunInvariant(config, states, events, i);
    RunInvariant(config, states, events, i + 1);
    var s, e := states[i], events[i];
    assert Enabled(s, e) && states[i + 1] == Next(cfg, s, e);
    hide IsRun;
    assert ThreadOk(s, e.t);
    var v := if e.DiskHit? then e.value else e.result.v;
    var sh := if e.DiskHit?
      then s.sh.(stats := s.sh.stats.(hits := s.sh.stats.hits + 1, diskHits := s.sh.stats.diskHits + 1))
              else Counted(s.sh, s.threads[e.t].pc.call);
    assert states[i + 1].sh == Insert(cfg, sh, s.threads[e.t].key, v);
    InsertKeeps(cfg, sh, s.threads[e.t].key, v);
    hide Insert, Index, Total, Sized;
    if |v.bytes| <= cfg.maxBytes {
      IndexAt(states[i + 1].sh.lru, 0);
    }
  }
}
