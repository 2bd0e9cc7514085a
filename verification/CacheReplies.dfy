/**
 What each lookup returns, told from the events of the run: every reply is what the environment handed
 to that thread, to the leader it waited for, or to whoever filled the entry it hit.
 */
module CacheReplies {
  import opened Seqs
  import opened AnalysisCache
  import opened CacheRuns

  const DIGITS := {'0', '1', '2', '3', '4', '5', '6', '7', '8', '9'}
  const LETTERS := {'a', 'b', 'c', 'd', 'e', 'f', 'A', 'B', 'C', 'D', 'E', 'F'}

  lemma HexMeans(c: char)
    ensures HexDigit(c) <==> c in DIGITS || c in LETTERS
  {
  }

  /** 64 hexadecimal digits. */
  ghost predicate Digest(h: string) {
    |h| == 64 && forall i :: 0 <= i < 64 ==> h[i] in DIGITS || h[i] in LETTERS
  }

  const ALGORITHM := "sha256:"

  lemma DigestMeans(text: string)
    requires |text| == 71
    ensures Digest(text[7..]) <==> forall i :: 7 <= i < 71 ==> HexDigit(text[i])
  {
    hide HexDigit;
    var h := text[7..];
    forall i | 0 <= i < 64 ensures HexDigit(text[i + 7]) <==> h[i] in DIGITS || h[i] in LETTERS {
      HexMeans(h[i]);
    }
    if Digest(h) {
      forall i | 7 <= i < 71 ensures HexDigit(text[i]) {
        assert text[i] == h[i - 7];
        HexMeans(h[i - 7]);
      }
    }
  }

  /** A key is well-formed exactly if it is the algorithm's name followed by 64 hexadecimal digits. */
  lemma ValidKeyMeans(key: Key)
    ensures ValidKey(key) <==> exists h :: key.text == ALGORITHM + h && Digest(h)
  {
    hide HexDigit;
    if ValidKey(key) {
      DigestMeans(key.text);
      assert key.text == ALGORITHM + key.text[7..];
    }
    hide Digest;
    if h :| key.text == ALGORITHM + h && Digest(h) {
      SizeOf(h);
      assert key.text[7..] == h;
      DigestMeans(key.text);
    }
  }

  lemma SizeOf(h: string)
    ensures Digest(h) ==> |h| == 64
  {
  }

  // ---------------------------------------------------------------- what a thread holds, it keeps

  /** Publishing a result, or returned with it. */
  predicate Holds(pc: Pc, r: Outcome, source: Source) {
    (pc.Publishing? && pc.result == r && pc.source == source) || pc == Returned(Reply(r, source))
  }

  lemma StepHolds(cfg: Config, s: State, e: Event, t: nat)
    requires Enabled(s, e) && t in s.threads
    ensures var s' := Next(cfg, s, e);
            && t in s'.threads && s'.threads[t].key == s.threads[t].key
            && (e.t != t ==> s'.threads[t].pc == s.threads[t].pc)
            && (s.threads[t].pc.Returned? ==> s'.threads[t].pc == s.threads[t].pc)
            && (forall r, src :: Holds(s.threads[t].pc, r, src) ==> Holds(s'.threads[t].pc, r, src))
  {
    hide Insert, StoreDiskHit, AnalysisCache.Publish, Touch;
  }

  lemma {:induction false} KeepsHolding(cfg: Config, states: seq<State>, events: seq<Event>, i: nat, k: nat, t: nat)
    requires IsRun(cfg, states, events) && i <= k < |states| && t in states[i].threads
    ensures t in states[k].threads && states[k].threads[t].key == states[i].threads[t].key
    ensures states[i].threads[t].pc.Returned? ==> states[k].threads[t].pc == states[i].threads[t].pc
    ensures forall r, src :: Holds(states[i].threads[t].pc, r, src) ==> Holds(states[k].threads[t].pc, r, src)
  {
    hide Next, Enabled, Holds;
    if i < k {
      KeepsHolding(cfg, states, events, i, k - 1, t);
      StepHolds(cfg, states[k - 1], events[k - 1], t);
    }
  }

  // ---------------------------------------------------------------- from the event to the reply

  /** What the event hands to its thread, in the state it found. */
  ghost predicate Gives(s: State, e: Event, pc: Pc) {
    match e
    case Enter(_, key) =>
      && (!ValidKey(key) ==> pc == Returned(InvalidKey))
      && (ValidKey(key) && key in s.sh.items ==> pc == Returned(Reply(Value(s.sh.items[key].value), Memory)))
    case DiskHit(_, v) => Holds(pc, Value(v), Disk)
    case DiskMiss(_) => true
    case Computed(_, r) => Holds(pc, r, Compute)
    case Publish(t) =>
      t in s.threads && s.threads[t].pc.Publishing?
      && pc == Returned(Reply(s.threads[t].pc.result, s.threads[t].pc.source))
    case Wake(t) =>
      && t in s.threads && s.threads[t].pc.Waiting?
      && var id := s.threads[t].pc.call;
      id in s.sh.calls && s.sh.calls[id].result.Some?
        && pc == Returned(Reply(s.sh.calls[id].result.value, SharedBy(id)))
    case GiveUp(_) => pc == Returned(ContextDone)
  }

  lemma StepGives(cfg: Config, s: State, e: Event)
    requires Enabled(s, e)
    ensures e.t in Next(cfg, s, e).threads && Gives(s, e, Next(cfg, s, e).threads[e.t].pc)
  {
    hide Insert, StoreDiskHit, AnalysisCache.Publish, Touch, ValidKey;
  }

  /**
   In every state after an event its thread has what the event gave it: a computed or loaded value is
   published and returned as it came, a hit returns the entry found, a malformed key is refused.
   */
  lemma GivenForGood(config: Config, states: seq<State>, events: seq<Event>, i: nat, k: nat)
    requires IsRun(Normalized(config), states, events) && i < |events| && i < k < |states|
    ensures events[i].t in states[k].threads && Gives(states[i], events[i], states[k].threads[events[i].t].pc)
  {
    hide Next, Enabled, Holds, ValidKey;
    StepGives(Normalized(config), states[i], events[i]);
    KeepsHolding(Normalized(config), states, events, i + 1, k, events[i].t);
  }

  // ---------------------------------------------------------------- from the reply to the event

  /** Event `e`, met by state `s`, is the one that settles what a thread with key `key` answers. */
  ghost predicate Settles(s: State, e: Event, key: Key, reply: Reply) {
    match reply
    case InvalidKey => e.Enter? && e.key == key && !ValidKey(key)
    case ContextDone => e.GiveUp?
    case Reply(r, Memory) =>
      e.Enter? && e.key == key && ValidKey(key) && key in s.sh.items && r == Value(s.sh.items[key].value)
    case Reply(r, Disk) => e.DiskHit? && r == Value(e.value)
    case Reply(r, Compute) => e.Computed? && r == e.result
    case Reply(r, SharedBy(id)) =>
      e.Wake? && id in s.sh.calls && s.sh.calls[id].key == key && s.sh.calls[id].result == Some(r)
  }

  ghost predicate Settled(states: seq<State>, events: seq<Event>, j: int, t: nat, key: Key, reply: Reply) {
    0 <= j < |events| && j < |states| && events[j].t == t && Settles(states[j], events[j], key, reply)
  }

  /** The reply a thread has returned, or is about to. */
  function Answer(pc: Pc): (r: Option<Reply>) {
    match pc
    case Publishing(_, r, src) => Some(Reply(r, src))
    case Returned(reply) => Some(reply)
    case _ => None
  }

  lemma StepSettles(cfg: Config, s: State, e: Event)
    requires Sane(cfg) && Inv(cfg, s) && Enabled(s, e)
    ensures e.t in Next(cfg, s, e).threads
    ensures var th, th' := s.threads, Next(cfg, s, e).threads;
            var reply := Answer(th'[e.t].pc);
            reply.Some? ==> (e.t in th && Answer(th[e.t].pc) == reply) || Settles(s, e, th'[e.t].key, reply.value)
  {
    hide Insert, StoreDiskHit, AnalysisCache.Publish, Touch, ValidKey, ListOk, CallsOk, FlightsOk;
    assert e.t in s.threads ==> ThreadOk(s, e.t);
  }

  /**
   Behind every reply stands the event that settled it, and it was an event of the same thread: no
   caller is told that its key is malformed or its context done, or given a value, without one.
   */
  lemma {:induction false} RepliesSettled(config: Config, states: seq<State>, events: seq<Event>, i: nat, t: nat)
    requires IsRun(Normalized(config), states, events) && i < |states| && t in states[i].threads
    ensures var reply := Answer(states[i].threads[t].pc);
            reply.Some? ==>
              exists j :: j < i && Settled(states, events, j, t, states[i].threads[t].key, reply.value)
  {
    var cfg := Normalized(config);
    if i > 0 {
      var s, e := states[i - 1], events[i - 1];
      assert Enabled(s, e) && states[i] == Next(cfg, s, e);
      RunInvariant(config, states, events, i - 1);
      hide Next, Enabled, Inv, Settles, Answer;
      if t in s.threads {
        RepliesSettled(config, states, events, i - 1, t);
        StepHolds(cfg, s, e, t);
      }
      ArrivesOnly(cfg, s, e, t);
      if e.t == t {
        StepSettles(cfg, s, e);
        var reply := Answer(states[i].threads[t].pc);
        assert reply.Some? && Settles(s, e, states[i].threads[t].key, reply.value) ==>
            Settled(states, events, i - 1, t, states[i].threads[t].key, reply.value);
      }
    }
  }

  lemma ArrivesOnly(cfg: Config, s: State, e: Event, t: nat)
    requires Enabled(s, e) && t in Next(cfg, s, e).threads
    ensures t in s.threads || t == e.t
  {
    hide Insert, StoreDiskHit, AnalysisCache.Publish, Touch, ValidKey;
  }

  // ---------------------------------------------------------------- payloads

  /** The event hands the thread a payload from the disk or from compute. */
  ghost predicate Yields(s: State, e: Event, k: Key, v: Payload) {
    && e.t in s.threads && s.threads[e.t].key == k
    && ((e.DiskHit? && e.value == v) || (e.Computed? && e.result == Value(v)))
  }

  lemma StepYields(cfg: Config, s: State, e: Event, k: Key, v: Payload)
    requires Enabled(s, e)
    ensures (k, v) in Next(cfg, s, e).produced <==> (k, v) in s.produced || Yields(s, e, k, v)
  {
    hide Insert, StoreDiskHit, AnalysisCache.Publish, Touch, ValidKey;
  }

  ghost predicate Yielded(states: seq<State>, events: seq<Event>, j: int, k: Key, v: Payload) {
    0 <= j < |events| && j < |states| && Yields(states[j], events[j], k, v)
  }

  /** The recorded payloads are exactly those the disk or compute yielded, each under its caller's key. */
  lemma {:induction false} ProducedMeans(cfg: Config, states: seq<State>, events: seq<Event>, i: nat, k: Key,
                                         v: Payload)
    requires IsRun(cfg, states, events) && i < |states|
    ensures (k, v) in states[i].produced <==> exists j :: j < i && Yielded(states, events, j, k, v)
  {
    hide Next, Enabled, Yields;
    if i > 0 {
      ProducedMeans(cfg, states, events, i - 1, k, v);
      StepYields(cfg, states[i - 1], events[i - 1], k, v);
      assert Yields(states[i - 1], events[i - 1], k, v) ==> Yielded(states, events, i - 1, k, v);
    }
  }

  // ---------------------------------------------------------------- statistics

  predicate MemoryHit(s: State, e: Event) {
    e.Enter? && ValidKey(e.key) && e.key in s.sh.items
  }

  predicate SharedHit(s: State, e: Event) {
    && e.Wake? && e.t in s.threads && s.threads[e.t].pc.Waiting?
    && var id := s.threads[e.t].pc.call;
    id in s.sh.calls && s.sh.calls[id].result.Some? && s.sh.calls[id].result.value.Value?
  }

  /** A value small enough to be kept came from the disk or from compute. */
  predicate Stores(cfg: Config, e: Event) {
    (e.DiskHit? && |e.value.bytes| <= cfg.maxBytes)
      || (e.Computed? && e.result.Value? && |e.result.v.bytes| <= cfg.maxBytes)
  }

  datatype Kind = Hits | Misses | DiskHits | Stored(cfg: Config)

  predicate OfKind(kind: Kind, s: State, e: Event) {
    match kind
    case Hits => MemoryHit(s, e) || e.DiskHit? || SharedHit(s, e)
    case Misses => e.DiskMiss?
    case DiskHits => e.DiskHit?
    case Stored(cfg) => Stores(cfg, e)
  }

  /** How many of the first `n` events of the run are of a kind. */
  function Times(states: seq<State>, events: seq<Event>, n: nat, kind: Kind): (c: nat)
    requires n <= |events| < |states|
  {
    if n == 0 then 0 else Times(states, events, n - 1, kind) + One(OfKind(kind, states[n - 1], events[n - 1]))
  }

  function One(b: bool): (n: nat) {
    if b then 1 else 0
  }

  lemma StepStats(cfg: Config, s: State, e: Event)
    requires Sane(cfg) && Inv(cfg, s) && Enabled(s, e)
    ensures var a, b := s.sh.stats, Next(cfg, s, e).sh.stats;
            && b.hits == a.hits + One(OfKind(Hits, s, e))
            && b.misses == a.misses + One(OfKind(Misses, s, e))
               && b.diskHits == a.diskHits + One(OfKind(DiskHits, s, e))
  {
    hide Evict, Index, Total, Without, ListOk, CallsOk, FlightsOk, ValidKey;
    assert e.t in s.threads ==> ThreadOk(s, e.t);
  }

  lemma StepEvictions(cfg: Config, s: State, e: Event)
    requires Sane(cfg) && Inv(cfg, s) && Enabled(s, e)
    ensures var a, b := s.sh, Next(cfg, s, e).sh;
            b.stats.evictions + |b.lru| == a.stats.evictions + |a.lru| + One(OfKind(Stored(cfg), s, e))
  {
    hide Evict, Index, Total, Without, CallsOk, FlightsOk, ValidKey, UniqueKeys, Sized, Fits;
    assert e.t in s.threads ==> ThreadOk(s, e.t);
    if e.Enter? && e.key in s.sh.items {
      TouchSize(cfg, s.sh, e.key);
    }
  }

  lemma TouchSize(cfg: Config, sh: Shared, key: Key)
    requires ListOk(cfg, sh) && key in sh.items
    ensures |Touch(sh, key).lru| == |sh.lru|
  {
    TouchKeeps(cfg, sh, key);
    IndexSize(sh.lru);
    IndexSize(Touch(sh, key).lru);
  }

  /** The statistics count the events, and every stored entry is still there or was evicted. */
  lemma {:induction false} StatsCount(config: Config, states: seq<State>, events: seq<Event>, i: nat)
    requires IsRun(Normalized(config), states, events) && i < |states|
    ensures var st := states[i].sh.stats;
            && st.hits == Times(states, events, i, Hits) && st.misses == Times(states, events, i, Misses)
            && st.diskHits == Times(states, events, i, DiskHits)
            && st.evictions + |states[i].sh.lru| == Times(states, events, i, Stored(Normalized(config)))
  {
    hide Next, Enabled, OfKind;
    if i > 0 {
      StatsCount(config, states, events, i - 1);
      RunInvariant(config, states, events, i - 1);
      hide Inv;
      StepStats(Normalized(config), states[i - 1], events[i - 1]);
      StepEvictions(Normalized(config), states[i - 1], events[i - 1]);
    }
  }
}
