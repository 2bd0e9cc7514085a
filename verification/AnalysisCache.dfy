/**
 The analysis cache: a bounded LRU behind one mutex, with a single-flight table. The class carries
 out each critical section on mutable fields; the functions give its effect on the shared state.
 */
module AnalysisCache {
  import opened Seqs

  datatype Key = Key(text: string)

  datatype Payload = Payload(bytes: seq<bv8>)

  datatype Config = Config(maxEntries: int, maxBytes: int)

  /** Zero and negative fields receive the defaults. */
  function Normalized(c: Config): (r: Config) {
    Config(if c.maxEntries <= 0 then 32 else c.maxEntries, if c.maxBytes <= 0 then 134217728 else c.maxBytes)
  }

  predicate HexDigit(c: char) {
    '0' <= c <= '9' || 'a' <= c <= 'f' || 'A' <= c <= 'F'
  }

  predicate ValidKey(key: Key) {
    |key.text| == 71 && "sha256:" <= key.text && forall i :: 7 <= i < 71 ==> HexDigit(key.text[i])
  }

  datatype Entry = Entry(key: Key, value: Payload, size: int)

  datatype Outcome = Value(v: Payload) | Error(e: int)

  /** One flight: `result` is set when its done channel closes; `computes` counts runs of compute. */
  datatype Call = Call(key: Key, leader: nat, computes: nat, result: Option<Outcome>)

  datatype Stats = Stats(hits: nat, misses: nat, diskHits: nat, evictions: int)

  /** What the mutex guards. `lru` is front first. */
  datatype Shared = Shared(
    items: map<Key, Entry>, lru: seq<Entry>, inflight: map<Key, nat>, calls: map<nat, Call>, nextCall: nat,
    bytes: int, stats: Stats)

  const EMPTY := Shared(map[], [], map[], map[], 0, 0, Stats(0, 0, 0, 0))

  // ---------------------------------------------------------------- the list

  function Total(lru: seq<Entry>): (n: int) {
    if lru == [] then 0 else Total(lru[..|lru| - 1]) + lru[|lru| - 1].size
  }

  predicate Fits(cfg: Config, lru: seq<Entry>) {
    |lru| <= cfg.maxEntries && Total(lru) <= cfg.maxBytes
  }

  /** Drops entries from the back until the rest fits. */
  function Evict(cfg: Config, lru: seq<Entry>): (r: seq<Entry>) {
    if lru == [] || Fits(cfg, lru) then lru else Evict(cfg, lru[..|lru| - 1])
  }

  /** The entries by key. */
  function Index(lru: seq<Entry>): (r: map<Key, Entry>) {
    if lru == [] then map[] else Index(lru[..|lru| - 1])[lru[|lru| - 1].key := lru[|lru| - 1]]
  }

  ghost predicate UniqueKeys(lru: seq<Entry>) {
    forall i, j :: 0 <= i < j < |lru| ==> lru[i].key != lru[j].key
  }

  ghost predicate Sized(lru: seq<Entry>) {
    forall i :: 0 <= i < |lru| ==> lru[i].size == |lru[i].value.bytes|
  }

  /** The list without the entry for `key`. */
  function Without(lru: seq<Entry>, key: Key): (r: seq<Entry>) {
    if lru == [] then []
    else
      var last := lru[|lru| - 1];
      Without(lru[..|lru| - 1], key) + if last.key == key then [] else [last]
  }

  function Touch(sh: Shared, key: Key): (r: Shared)
    requires key in sh.items
  {
    sh.(lru := [sh.items[key]] + Without(sh.lru, key))
  }

  /** The map and the list hold the same entries, each once, and `bytes` is their total size. */
  ghost predicate Agree(sh: Shared) {
    UniqueKeys(sh.lru) && Sized(sh.lru) && sh.items == Index(sh.lru) && sh.bytes == Total(sh.lru)
  }

  // ---------------------------------------------------------------- critical sections

  /** Inserting a value: refused if it alone exceeds the bound, otherwise at the front, evicting at the back. */
  function Insert(cfg: Config, sh: Shared, key: Key, value: Payload): (r: Shared) {
    var e := Entry(key, value, |value.bytes|);
    if |value.bytes| > cfg.maxBytes then sh
    else if key in sh.items then
      sh.(items := sh.items[key := e], lru := [e] + Without(sh.lru, key),
        bytes := sh.bytes - sh.items[key].size + |value.bytes|)
    else
      var kept := Evict(cfg, [e] + sh.lru);
      sh.(items := Index(kept), lru := kept, bytes := Total(kept),
      stats := sh.stats.(evictions := sh.stats.evictions + |sh.lru| + 1 - |kept|))
  }

  datatype Entered = Hit(value: Payload) | Joined(call: nat) | Leads(call: nat)

  /** The first critical section of a lookup: a hit, a wait on the flight under way, or a new flight. */
  function Enter(sh: Shared, t: nat, key: Key): (r: (Shared, Entered)) {
    if key in sh.items then
      (Touch(sh, key).(stats := sh.stats.(hits := sh.stats.hits + 1)), Hit(sh.items[key].value))
    else if key in sh.inflight then (sh, Joined(sh.inflight[key]))
    else
      var id := sh.nextCall;
      (sh.(inflight := sh.inflight[key := id], calls := sh.calls[id := Call(key, t, 0, None)], nextCall := id + 1),
        Leads(id))
  }

  function StoreDiskHit(cfg: Config, sh: Shared, key: Key, value: Payload): (r: Shared) {
    Insert(cfg, sh.(stats := sh.stats.(hits := sh.stats.hits + 1, diskHits := sh.stats.diskHits + 1)), key, value)
  }

  /** Publishing: the flight's result is set, its table entry removed, its waiters released. */
  function Publish(sh: Shared, key: Key, id: nat, r: Outcome): (s: Shared)
    requires id in sh.calls
  {
    sh.(calls := sh.calls[id := sh.calls[id].(result := Some(r))], inflight := sh.inflight - {key})
  }

  // ---------------------------------------------------------------- eviction

  lemma {:induction false} EvictIs(cfg: Config, lru: seq<Entry>)
    requires cfg.maxEntries >= 1 && cfg.maxBytes >= 1
    ensures Evict(cfg, lru) <= lru && Fits(cfg, Evict(cfg, lru))
    ensures forall n :: |Evict(cfg, lru)| < n <= |lru| ==> !Fits(cfg, lru[..n])
  {
    if lru != [] && !Fits(cfg, lru) {
      var m := |lru| - 1;
      EvictIs(cfg, lru[..m]);
      forall n | |Evict(cfg, lru)| < n <= |lru| ensures !Fits(cfg, lru[..n]) {
        if n <= m {
          assert lru[..m][..n] == lru[..n];
        } else {
          assert lru[..n] == lru;
        }
      }
    }
  }

  lemma {:induction false} TotalCons(e: Entry, lru: seq<Entry>)
    ensures Total([e] + lru) == e.size + Total(lru)
  {
    if lru == [] {
      assert [e] + lru == [e];
      assert [e][..0] == [];
    } else {
      var m := |lru| - 1;
      TotalCons(e, lru[..m]);
      assert ([e] + lru)[..m + 1] == [e] + lru[..m];
    }
  }

  /** An admitted entry is never the one evicted: the list that holds it alone fits. */
  lemma EvictKeepsFirst(cfg: Config, e: Entry, lru: seq<Entry>)
    requires cfg.maxEntries >= 1 && cfg.maxBytes >= 1 && e.size <= cfg.maxBytes
    ensures Evict(cfg, [e] + lru) != [] && Evict(cfg, [e] + lru)[0] == e
  {
    var all := [e] + lru;
    EvictIs(cfg, all);
    assert all[..1] == [e];
    TotalCons(e, []);
    assert [e] + [] == [e];
    assert Fits(cfg, all[..1]);
  }

  /**
   On an agreeing state, inserting an absent key keeps agreement and the bounds; the new entry is at
   the front; what remains of the old list is its longest prefix that fits behind it.
   */
  lemma InsertKeeps(cfg: Config, sh: Shared, key: Key, value: Payload)
    requires cfg.maxEntries >= 1 && cfg.maxBytes >= 1 && Agree(sh) && Fits(cfg, sh.lru) && key !in sh.items
    ensures var r := Insert(cfg, sh, key, value);
            && Agree(r) && Fits(cfg, r.lru)
            && (|value.bytes| <= cfg.maxBytes ==>
              r.lru != [] && r.lru[0] == Entry(key, value, |value.bytes|) && r.lru[1..] <= sh.lru)
            && (|value.bytes| > cfg.maxBytes ==> r == sh)
            && (forall n :: |r.lru| < n <= |sh.lru| + 1 && |value.bytes| <= cfg.maxBytes ==>
              !Fits(cfg, ([r.lru[0]] + sh.lru)[..n]))
            && (forall k :: k in r.items ==> k == key || k in sh.items)
  {
    if |value.bytes| <= cfg.maxBytes {
      var e := Entry(key, value, |value.bytes|);
      EvictIs(cfg, [e] + sh.lru);
      EvictKeepsFirst(cfg, e, sh.lru);
      var kept := Evict(cfg, [e] + sh.lru);
      ConsUnique(e, sh.lru);
      PrefixUnique([e] + sh.lru, kept);
      hide Evict, Total, Index, UniqueKeys, Sized;
      forall k | k in Index(kept) && k != key ensures k in sh.items {
        KeptKnown(e, sh.lru, kept, k);
      }
    }
  }

  lemma KeptKnown(e: Entry, lru: seq<Entry>, kept: seq<Entry>, k: Key)
    requires kept <= [e] + lru && UniqueKeys(lru) && k in Index(kept) && k != e.key
    ensures k in Index(lru)
  {
    var i := IndexOnly(kept, k);
    assert kept[i] == lru[i - 1];
    IndexAt(lru, i - 1);
  }

  lemma PrefixUnique(lru: seq<Entry>, kept: seq<Entry>)
    requires UniqueKeys(lru) && Sized(lru) && kept <= lru
    ensures UniqueKeys(kept) && Sized(kept)
  {
  }

  /** Looking a key up in the map finds the one entry the list holds for it. */
  lemma {:induction false} IndexAt(lru: seq<Entry>, i: nat)
    requires UniqueKeys(lru) && i < |lru|
    ensures lru[i].key in Index(lru) && Index(lru)[lru[i].key] == lru[i]
  {
    var n := |lru| - 1;
    if i < n {
      IndexAt(lru[..n], i);
    }
  }

  lemma {:induction false} IndexOnly(lru: seq<Entry>, k: Key) returns (i: nat)
    requires k in Index(lru)
    ensures i < |lru| && lru[i].key == k
  {
    var n := |lru| - 1;
    if lru[n].key == k {
      i := n;
    } else {
      i := IndexOnly(lru[..n], k);
    }
  }

  lemma {:induction false} IndexSize(lru: seq<Entry>)
    requires UniqueKeys(lru)
    ensures |Index(lru)| == |lru|
  {
    if lru != [] {
      var n := |lru| - 1;
      IndexSize(lru[..n]);
      LastNew(lru);
      var m := Index(lru[..n]);
      assert m[lru[n].key := lru[n]].Keys == m.Keys + {lru[n].key};
    }
  }

  lemma LastNew(lru: seq<Entry>)
    requires UniqueKeys(lru) && lru != []
    ensures lru[|lru| - 1].key !in Index(lru[..|lru| - 1])
  {
    var n := |lru| - 1;
    if lru[n].key in Index(lru[..n]) {
      var i := IndexOnly(lru[..n], lru[n].key);
    }
  }

  lemma ConsUnique(e: Entry, lru: seq<Entry>)
    requires UniqueKeys(lru) && e.key !in Index(lru)
    ensures UniqueKeys([e] + lru) && (Sized(lru) && e.size == |e.value.bytes| ==> Sized([e] + lru))
  {
    forall i | 0 <= i < |lru| ensures lru[i].key != e.key {
      IndexAt(lru, i);
    }
  }

  lemma {:induction false} IndexCons(e: Entry, lru: seq<Entry>)
    requires UniqueKeys([e] + lru)
    ensures Index([e] + lru) == Index(lru)[e.key := e]
  {
    if lru == [] {
      assert [e] + lru == [e] && [e][..0] == [];
    } else {
      var n := |lru| - 1;
      assert ([e] + lru)[..n + 1] == [e] + lru[..n];
      IndexCons(e, lru[..n]);
      assert ([e] + lru)[0].key != ([e] + lru)[n + 1].key;
    }
  }

  lemma {:induction false} IndexCut(a: seq<Entry>, e: Entry, b: seq<Entry>)
    requires UniqueKeys(a + [e] + b)
    ensures Index(a + [e] + b) == Index(a + b)[e.key := e]
  {
    if b == [] {
      assert a + [e] + b == a + [e] && a + b == a && (a + [e])[..|a|] == a;
    } else {
      var n := |b| - 1;
      var s := a + [e] + b;
      assert s[..|a| + 1 + n] == a + [e] + b[..n];
      IndexCut(a, e, b[..n]);
      assert (a + b)[..|a| + n] == a + b[..n];
      assert s[|a|].key != s[|a| + 1 + n].key;
    }
  }

  lemma {:induction false} WithoutIs(lru: seq<Entry>, i: nat)
    requires i < |lru| && UniqueKeys(lru)
    ensures Without(lru, lru[i].key) == lru[..i] + lru[i + 1..]
    ensures Total(Without(lru, lru[i].key)) == Total(lru) - lru[i].size
    decreases |lru|
  {
    var m := |lru| - 1;
    if i == m {
      WithoutAbsent(lru[..m], lru[i].key);
      assert lru[..i] + lru[i + 1..] == lru[..m];
    } else {
      WithoutIs(lru[..m], i);
      hide UniqueKeys;
      var cut := lru[..m][..i] + lru[..m][i + 1..];
      assert cut + [lru[m]] == lru[..i] + lru[i + 1..];
      assert (cut + [lru[m]])[..m - 1] == cut;
    }
  }

  lemma {:induction false} WithoutAbsent(lru: seq<Entry>, key: Key)
    requires forall a :: 0 <= a < |lru| ==> lru[a].key != key
    ensures Without(lru, key) == lru
  {
    if lru != [] {
      WithoutAbsent(lru[..|lru| - 1], key);
    }
  }

  /** A hit only reorders: the same entries, the one found now first. */
  lemma TouchKeeps(cfg: Config, sh: Shared, key: Key)
    requires Agree(sh) && Fits(cfg, sh.lru) && key in sh.items
    ensures Agree(Touch(sh, key)) && Fits(cfg, Touch(sh, key).lru) && Touch(sh, key).lru[0] == sh.items[key]
    ensures multiset(Touch(sh, key).lru) == multiset(sh.lru)
  {
    hide Index, Total, UniqueKeys, Sized, Without;
    var i := IndexOnly(sh.lru, key);
    IndexAt(sh.lru, i);
    var e, a, b := sh.lru[i], sh.lru[..i], sh.lru[i + 1..];
    WithoutIs(sh.lru, i);
    assert sh.lru == a + [e] + b;
    TotalCons(e, a + b);
    MoveUnique(a, e, b);
    IndexCut(a, e, b);
    IndexCons(e, a + b);
    assert |[e] + (a + b)| == |sh.lru|;
  }

  lemma MoveUnique(a: seq<Entry>, e: Entry, b: seq<Entry>)
    requires UniqueKeys(a + [e] + b)
    ensures UniqueKeys([e] + (a + b)) && (Sized(a + [e] + b) ==> Sized([e] + (a + b)))
  {
    var s, r := a + [e] + b, [e] + (a + b);
    forall i | 0 <= i < |r| ensures r[i] == s[Home(|a|, i)] {}
    hide UniqueKeys, Sized;
    MovedUnique(s, r, |a|);
  }

  /** Where the element now at `i` was before the one at `n` moved to the front. */
  function Home(n: nat, i: nat): (j: nat) {
    if i == 0 then n else if i <= n then i - 1 else i
  }

  lemma MovedUnique(s: seq<Entry>, r: seq<Entry>, n: nat)
    requires n < |s| == |r| && UniqueKeys(s) && forall i :: 0 <= i < |r| ==> r[i] == s[Home(n, i)]
    ensures UniqueKeys(r) && (Sized(s) ==> Sized(r))
  {
    forall i, j | 0 <= i < j < |r| ensures r[i].key != r[j].key {
      var x, y := Home(n, i), Home(n, j);
      assert r[i] == s[x] && r[j] == s[y];
      assert x < y || y < x;
    }
  }

  // ---------------------------------------------------------------- the cache object

  class Cache {
    const cfg: Config
    var items: map<Key, Entry>
    var lru: seq<Entry>
    var inflight: map<Key, nat>
    var calls: map<nat, Call>
    var nextCall: nat
    var bytes: int
    var stats: Stats

    ghost function View(): Shared
      reads this
    {
      Shared(items, lru, inflight, calls, nextCall, bytes, stats)
    }

    ghost predicate Valid()
      reads this
    {
      cfg.maxEntries >= 1 && cfg.maxBytes >= 1 && Agree(View()) && Fits(cfg, lru)
    }

    constructor (config: Config)
      ensures Valid() && View() == EMPTY && cfg == Normalized(config)
    {
      cfg := Normalized(config);
      items, lru, inflight, calls, nextCall, bytes, stats := map[], [], map[], map[], 0, 0, Stats(0, 0, 0, 0);
    }

    /** Moves the entry for a listed key to the front. */
    method MoveToFront(key: Key)
      requires UniqueKeys(lru) && key in Index(lru)
      modifies this`lru
      ensures lru == [Index(old(lru))[key]] + Without(old(lru), key)
    {
      ghost var at := IndexOnly(lru, key);
      hide Index, Without, UniqueKeys;
      var i := 0;
      while lru[i].key != key
        invariant 0 <= i <= at < |lru| && lru == old(lru)
        decreases |lru| - i
      {
        i := i + 1;
      }
      WithoutIs(lru, i);
      IndexAt(lru, i);
      lru := [lru[i]] + (lru[..i] + lru[i + 1..]);
    }

    /** The first critical section of a lookup. */
    method EnterLocked(t: nat, key: Key) returns (r: Entered)
      requires Valid()
      modifies this
      ensures Valid() && (View(), r) == Enter(old(View()), t, key)
    {
      hide Index, Total, Without, UniqueKeys, Sized;
      if key in items {
        TouchKeeps(cfg, View(), key);
        MoveToFront(key);
        stats := stats.(hits := stats.hits + 1);
        return Hit(items[key].value);
      }
      if key in inflight {
        return Joined(inflight[key]);
      }
      inflight := inflight[key := nextCall];
      calls := calls[nextCall := Call(key, t, 0, None)];
      r := Leads(nextCall);
      nextCall := nextCall + 1;
    }

    method StoreDiskHitLocked(key: Key, value: Payload)
      requires Valid()
      modifies this
      ensures View() == StoreDiskHit(cfg, old(View()), key, value) && (key !in old(items) ==> Valid())
    {
      hide Insert, Index, Total, UniqueKeys, Sized;
      stats := stats.(hits := stats.hits + 1, diskHits := stats.diskHits + 1);
      InsertLocked(key, value);
    }

    method PublishLocked(key: Key, id: nat, r: Outcome)
      requires Valid() && id in calls
      modifies this`calls, this`inflight
      ensures Valid() && View() == Publish(old(View()), key, id, r)
    {
      calls := calls[id := calls[id].(result := Some(r))];
      inflight := inflight - {key};
    }

    /** Drops entries from the back while a bound is exceeded. */
    method EvictBack()
      requires UniqueKeys(lru) && items == Index(lru) && bytes == Total(lru)
      modifies this`lru, this`items, this`bytes, this`stats
      ensures lru == Evict(cfg, old(lru)) && items == Index(lru) && bytes == Total(lru)
      ensures stats == old(stats).(evictions := old(stats.evictions) + old(|lru|) - |lru|)
    {
      hide Index, Total, Evict, UniqueKeys, Fits;
      IndexSize(lru);
      while (|items| > cfg.maxEntries || bytes > cfg.maxBytes) && |lru| > 0
        invariant Evict(cfg, lru) == Evict(cfg, old(lru))
        invariant UniqueKeys(lru) && items == Index(lru) && bytes == Total(lru) && |items| == |lru|
        invariant stats == old(stats).(evictions := old(stats.evictions) + old(|lru|) - |lru|)
        decreases |lru|
      {
        var victim := lru[|lru| - 1];
        OverFull(cfg, lru);
        DropLast(cfg, lru);
        items := items - {victim.key};
        bytes := bytes - victim.size;
        lru := lru[..|lru| - 1];
        stats := stats.(evictions := stats.evictions + 1);
      }
      OverFull(cfg, lru);
      EvictDone(cfg, lru);
    }

    method Replace(key: Key, value: Payload)
      requires Valid() && key in items && |value.bytes| <= cfg.maxBytes
      modifies this`lru, this`items, this`bytes
      ensures View() == Insert(cfg, old(View()), key, value)
    {
      hide Index, Without, Total, UniqueKeys, Sized;
      bytes := bytes - items[key].size + |value.bytes|;
      items := items[key := Entry(key, value, |value.bytes|)];
      MoveToFront(key);
      lru := lru[0 := Entry(key, value, |value.bytes|)];
    }

    method InsertLocked(key: Key, value: Payload)
      requires Valid()
      modifies this
      ensures View() == Insert(cfg, old(View()), key, value)
      ensures key !in old(items) ==> Valid()
    {
      if |value.bytes| > cfg.maxBytes {
        return;
      }
      if key in items {
        Replace(key, value);
        return;
      }
      InsertKeeps(cfg, View(), key, value);
      var e := Entry(key, value, |value.bytes|);
      TotalCons(e, lru);
      ConsUnique(e, lru);
      IndexCons(e, lru);
      hide Index, Total, Evict, UniqueKeys, Sized;
      items := items[key := e];
      lru := [e] + lru;
      bytes := bytes + e.size;
      EvictBack();
    }
  }

  lemma OverFull(cfg: Config, lru: seq<Entry>)
    ensures Fits(cfg, lru) <==> |lru| <= cfg.maxEntries && Total(lru) <= cfg.maxBytes
  {
  }

  lemma EvictDone(cfg: Config, lru: seq<Entry>)
    requires lru == [] || Fits(cfg, lru)
    ensures Evict(cfg, lru) == lru
  {
  }

  lemma DropLast(cfg: Config, lru: seq<Entry>)
    requires lru != [] && UniqueKeys(lru) && !Fits(cfg, lru)
    ensures var n := |lru| - 1;
            && Evict(cfg, lru) == Evict(cfg, lru[..n]) && UniqueKeys(lru[..n])
            && Index(lru[..n]) == Index(lru) - {lru[n].key} && Total(lru[..n]) == Total(lru) - lru[n].size
            && |Index(lru[..n])| == n
  {
    var n := |lru| - 1;
    LastNew(lru);
    IndexSize(lru[..n]);
  }
}
