/**
 The eviction order of the analysis cache over every interleaving: the list is ordered by last use, and
 whatever is evicted was used before everything that stays.
 */
module CacheOrder {
  import opened Seqs
  import opened AnalysisCache
  import opened CacheRuns

  /** The key a step uses: found in memory, or stored. */
  function Used(cfg: Config, s: State, e: Event): (k: Option<Key>)
    requires Enabled(s, e)
  {
    match e
    case Enter(t, key) => if ValidKey(key) && key in s.sh.items then Some(key) else None
    case DiskHit(t, v) => if |v.bytes| <= cfg.maxBytes then Some(s.threads[t].key) else None
    case Computed(t, r) => if r.Value? && |r.v.bytes| <= cfg.maxBytes then Some(s.threads[t].key) else None
    case _ => None
  }

  /** The number of the last step before state `i` that used `k`, counted from one; zero if there is none. */
  ghost function LastUse(cfg: Config, states: seq<State>, events: seq<Event>, i: nat, k: Key): (n: nat)
    requires IsRun(cfg, states, events) && i < |states|
    ensures n <= i
  {
    if i == 0 then 0
    else if Used(cfg, states[i - 1], events[i - 1]) == Some(k) then i
    else LastUse(cfg, states, events, i - 1, k)
  }

  // ---------------------------------------------------------------- one step

  /** The used key leads the new list, the others follow in order; they are cut off at the back only for a new key. */
  ghost predicate Leads(lru: seq<Entry>, lru': seq<Entry>, k: Key) {
    && lru' != [] && lru'[0].key == k && Subseq(lru'[1..], lru)
    && (forall b :: 1 <= b < |lru'| ==> lru'[b].key != k)
    && (|| (lru'[1..] <= lru && forall a :: 0 <= a < |lru| ==> lru[a].key != k)
        || (forall a :: 0 <= a < |lru| ==> lru[a] in lru'))
  }

  lemma TouchLeads(cfg: Config, sh: Shared, key: Key)
    requires Agree(sh) && key in sh.items
    ensures Leads(sh.lru, Touch(sh, key).lru, key)
  {
    hide Index, Total, Sized, Without;
    var i := IndexOnly(sh.lru, key);
    IndexAt(sh.lru, i);
    WithoutIs(sh.lru, i);
    CutSubseq(sh.lru, i);
    var lru' := Touch(sh, key).lru;
    assert lru'[1..] == sh.lru[..i] + sh.lru[i + 1..];
    forall b | 1 <= b < |lru'| ensures lru'[b].key != key {
      assert lru'[b] == if b - 1 < i then sh.lru[b - 1] else sh.lru[b];
    }
    forall a | 0 <= a < |sh.lru| ensures sh.lru[a] in lru' {
      assert a < i ==> lru'[a + 1] == sh.lru[a];
      assert a > i ==> lru'[a] == sh.lru[a];
    }
  }

  lemma InsertLeads(cfg: Config, sh: Shared, key: Key, value: Payload)
    requires Sane(cfg) && Agree(sh) && Fits(cfg, sh.lru) && key !in sh.items
    ensures |value.bytes| <= cfg.maxBytes ==> Leads(sh.lru, Insert(cfg, sh, key, value).lru, key)
    ensures |value.bytes| > cfg.maxBytes ==> Insert(cfg, sh, key, value) == sh
  {
    InsertKeeps(cfg, sh, key, value);
    hide Insert, Index, Total, Sized, UniqueKeys;
    if |value.bytes| <= cfg.maxBytes {
      var lru' := Insert(cfg, sh, key, value).lru;
      PrefixSubseq(lru'[1..], sh.lru);
      forall b | 1 <= b < |lru'| ensures lru'[b].key != key {
        assert lru'[b] == lru'[1..][b - 1] == sh.lru[b - 1];
        IndexAt(sh.lru, b - 1);
      }
      forall a | 0 <= a < |sh.lru| ensures sh.lru[a].key != key {
        IndexAt(sh.lru, a);
      }
    }
  }

  /** A step that uses no key leaves the list alone, one that uses a key brings it to the front. */
  lemma StepLeads(cfg: Config, s: State, e: Event)
    requires Sane(cfg) && Inv(cfg, s) && Enabled(s, e)
    ensures var lru, lru' := s.sh.lru, Next(cfg, s, e).sh.lru;
            if Used(cfg, s, e).Some? then Leads(lru, lru', Used(cfg, s, e).value) else lru' == lru
  {
    hide Leads, ThreadsOk, CallsOk, Agree, Fits, Insert, Touch;
    match e
    case Enter(t, key) =>
      if ValidKey(key) && key in s.sh.items {
        TouchLeads(cfg, s.sh, key);
      }
    case DiskHit(t, v) =>
      StoringAbsent(cfg, s, t);
      var sh := s.sh.(stats := s.sh.stats.(hits := s.sh.stats.hits + 1, diskHits := s.sh.stats.diskHits + 1));
      SameAgree(cfg, s.sh, sh);
      InsertLeads(cfg, sh, s.threads[t].key, v);
    case Computed(t, r) =>
      StoringAbsent(cfg, s, t);
      var sh := Counted(s.sh, s.threads[t].pc.call);
      SameAgree(cfg, s.sh, sh);
      if r.Value? {
        InsertLeads(cfg, sh, s.threads[t].key, r.v);
      }
    case _ =>
  }

  lemma SameAgree(cfg: Config, sh: Shared, sh': Shared)
    requires Agree(sh) && sh'.lru == sh.lru && sh'.items == sh.items && sh'.bytes == sh.bytes
    ensures Agree(sh')
  {
  }

  lemma StoringAbsent(cfg: Config, s: State, t: nat)
    requires Inv(cfg, s) && t in s.threads && (s.threads[t].pc.Leading? || s.threads[t].pc.Computing?)
    ensures s.threads[t].key !in s.sh.items
  {
    hide ListOk, CallsOk;
    assert ThreadOk(s, t);
  }

  // ---------------------------------------------------------------- every run

  /** Earlier in the list means used later. */
  ghost predicate Ordered(cfg: Config, states: seq<State>, events: seq<Event>, i: nat, lru: seq<Entry>)
    requires IsRun(cfg, states, events) && i < |states|
  {
    forall a, b :: 0 <= a < b < |lru| ==>
                     LastUse(cfg, states, events, i, lru[b].key) < LastUse(cfg, states, events, i, lru[a].key)
  }

  lemma OrderedMore(cfg: Config, states: seq<State>, events: seq<Event>, i: nat, lru: seq<Entry>, lru': seq<Entry>,
                    k: Key)
    requires IsRun(cfg, states, events) && 0 < i < |states| && Used(cfg, states[i - 1], events[i - 1]) == Some(k)
    requires Ordered(cfg, states, events, i - 1, lru) && Leads(lru, lru', k)
    ensures Ordered(cfg, states, events, i, lru')
  {
    hide IsRun;
    forall a, b | 0 <= a < b < |lru'|
      ensures LastUse(cfg, states, events, i, lru'[b].key) < LastUse(cfg, states, events, i, lru'[a].key)
    {
      if a > 0 {
        var x, y := SubseqOrder(lru'[1..], lru, a - 1, b - 1);
      }
    }
  }

  /** In every reachable state the list is ordered by last use, the latest first. */
  lemma {:induction false} OrderedByUse(config: Config, states: seq<State>, events: seq<Event>, i: nat)
    requires IsRun(Normalized(config), states, events) && i < |states|
    ensures Ordered(Normalized(config), states, events, i, states[i].sh.lru)
  {
    hide Next, Enabled, Inv, Used, Leads;
    var cfg := Normalized(config);
    if i > 0 {
      var s, e := states[i - 1], events[i - 1];
      assert Enabled(s, e) && states[i - 1 + 1] == Next(cfg, s, e);
      RunInvariant(config, states, events, i - 1);
      OrderedByUse(config, states, events, i - 1);
      StepLeads(cfg, s, e);
      if Used(cfg, s, e).Some? {
        OrderedMore(cfg, states, events, i, s.sh.lru, states[i].sh.lru, Used(cfg, s, e).value);
      }
    }
  }

  /** An entry that is cut off stood behind every entry that stays. */
  lemma Cut(lru: seq<Entry>, lru': seq<Entry>, k: Key, x: Entry, y: Entry) returns (a: nat, b: nat)
    requires lru' == lru || Leads(lru, lru', k)
    requires x in lru && x !in lru' && y in lru && y in lru'
    ensures b < a < |lru| && lru[a] == x && lru[b] == y
  {
    a :| a < |lru| && lru[a] == x;
    var c :| 0 <= c < |lru'| && lru'[c] == y;
    var d :| 0 <= d < |lru| && lru[d] == y;
    assert c > 0;
    b := c - 1;
    assert lru'[1..][b] == y;
  }

  /** Whatever a step evicts was last used before everything it keeps. */
  lemma EvictsLeastRecent(config: Config, states: seq<State>, events: seq<Event>, i: nat, x: Entry, y: Entry)
    requires IsRun(Normalized(config), states, events) && i < |events|
    requires x in states[i].sh.lru && x !in states[i + 1].sh.lru
    requires y in states[i].sh.lru && y in states[i + 1].sh.lru
    ensures LastUse(Normalized(config), states, events, i, x.key) < LastUse(Normalized(config), states, events, i,
      y.key)
  {
    hide Next, Enabled, Inv, Used, LastUse;
    var cfg, s, e := Normalized(config), states[i], events[i];
    assert Enabled(s, e) && states[i + 1] == Next(cfg, s, e);
    RunInvariant(config, states, events, i);
    OrderedByUse(config, states, events, i);
    StepLeads(cfg, s, e);
    var a, b := Cut(s.sh.lru, states[i + 1].sh.lru, if Used(cfg, s, e).Some? then Used(cfg, s, e).value else x.key, x,
      y);
  }
}
