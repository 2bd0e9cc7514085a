/**
 The scope-local memo table: hash buckets for lookup, an insertion-ordered list for eviction and a
 running byte count. It behaves as a bounded first-in first-out association list.
 */
module Memo {
  import opened Seqs
  import opened Wire

  datatype Hash = Hash(bits: bv64)

  /** The key strategy, and the hash a partition is built with. */
  datatype Strategy = Strategy(hash: Key -> Hash, equal: (Key, Key) -> bool, size: Key -> nat, partHash: string -> Hash)

  ghost predicate StrategyOk(ks: Strategy) {
    && (forall a: Key :: ks.equal(a, a))
    && (forall a: Key, b: Key :: ks.equal(a, b) ==> ks.equal(b, a) && ks.hash(a) == ks.hash(b))
    && (forall a: Key, b: Key, c: Key :: ks.equal(a, b) && ks.equal(b, c) ==> ks.equal(a, c))
  }

  datatype Limits = Limits(maxItems: int, maxBytes: int)

  /** One memoized result; `serial` stands for the identity of the record. */
  datatype Rec = Rec(serial: nat, part: string, key: Key, value: Value, found: bool, bytes: nat)

  function HashOf(ks: Strategy, part: string, key: Key): (h: Hash) {
    Hash(ks.partHash(part).bits ^ ks.hash(key).bits)
  }

  predicate Matches(ks: Strategy, r: Rec, part: string, key: Key) {
    r.part == part && ks.equal(r.key, key)
  }

  // ---------------------------------------------------------------- the association list

  /** The first record for (part, key). */
  function Find(ks: Strategy, recs: seq<Rec>, part: string, key: Key): (r: Option<Rec>) {
    if recs == [] then None
    else if Matches(ks, recs[0], part, key) then Some(recs[0])
    else Find(ks, recs[1..], part, key)
  }

  function Total(recs: seq<Rec>): (n: nat) {
    if recs == [] then 0 else recs[0].bytes + Total(recs[1..])
  }

  predicate Within(l: Limits, recs: seq<Rec>) {
    |recs| <= l.maxItems && (l.maxBytes > 0 ==> Total(recs) <= l.maxBytes)
  }

  /** Drops the oldest records until the rest is within the limits. */
  function Trim(l: Limits, recs: seq<Rec>): (r: seq<Rec>) {
    if recs == [] || Within(l, recs) then recs else Trim(l, recs[1..])
  }

  datatype PutOp = PutOp(part: string, key: Key, value: Value, found: bool)

  /** Storing a result keeps the record already there, or appends one and trims. */
  function AfterPut(ks: Strategy, l: Limits, recs: seq<Rec>, serial: nat, p: PutOp): (r: seq<Rec>) {
    if Find(ks, recs, p.part, p.key).Some? then recs
    else Trim(l, recs + [Rec(serial, p.part, p.key, p.value, p.found, ks.size(p.key))])
  }

  /** The list after a history of puts; the serial of a record is the index of its put. */
  function After(ks: Strategy, l: Limits, puts: seq<PutOp>): (r: seq<Rec>) {
    if puts == [] then []
    else
      var n := |puts| - 1;
      AfterPut(ks, l, After(ks, l, puts[..n]), n, puts[n])
  }

  // ---------------------------------------------------------------- trimming and lookup

  /** What is dropped is the shortest oldest prefix whose removal restores the limits. */
  lemma {:induction false} TrimIs(l: Limits, recs: seq<Rec>) returns (n: nat)
    ensures n <= |recs| && Trim(l, recs) == recs[n..]
    ensures Trim(l, recs) == [] || Within(l, Trim(l, recs))
    ensures forall m :: 0 <= m < n ==> !Within(l, recs[m..])
  {
    if recs == [] || Within(l, recs) {
      n := 0;
    } else {
      var k := TrimIs(l, recs[1..]);
      n := k + 1;
      forall m | 0 <= m < n ensures !Within(l, recs[m..]) {
        if m > 0 {
          assert recs[1..][m - 1..] == recs[m..];
        } else {
          assert recs[0..] == recs;
        }
      }
      assert recs[1..][k..] == recs[n..];
    }
  }

  lemma {:induction false} FindIs(ks: Strategy, recs: seq<Rec>, part: string, key: Key)
    ensures var r := Find(ks, recs, part, key);
            && (r.Some? ==> r.value in recs && Matches(ks, r.value, part, key))
            && (r.None? <==> forall i :: 0 <= i < |recs| ==> !Matches(ks, recs[i], part, key))
  {
    if recs != [] && !Matches(ks, recs[0], part, key) {
      FindIs(ks, recs[1..], part, key);
      forall i | 0 < i < |recs| && Find(ks, recs, part, key).None? ensures !Matches(ks, recs[i], part, key) {
        assert recs[i] == recs[1..][i - 1];
      }
    }
  }

  /** No two records are for the same identity. */
  ghost predicate Unique(ks: Strategy, recs: seq<Rec>) {
    forall i, j :: 0 <= i < j < |recs| ==> !Matches(ks, recs[i], recs[j].part, recs[j].key)
  }

  lemma PutUnique(ks: Strategy, l: Limits, recs: seq<Rec>, serial: nat, p: PutOp)
    requires Unique(ks, recs)
    ensures Unique(ks, AfterPut(ks, l, recs, serial, p))
  {
    if Find(ks, recs, p.part, p.key).None? {
      FindIs(ks, recs, p.part, p.key);
      var all := recs + [Rec(serial, p.part, p.key, p.value, p.found, ks.size(p.key))];
      var n := TrimIs(l, all);
      assert forall i :: 0 <= i < |all| - n ==> all[n..][i] == all[n + i];
    }
  }

  lemma {:induction false} AfterUnique(ks: Strategy, l: Limits, puts: seq<PutOp>)
    ensures Unique(ks, After(ks, l, puts))
  {
    if puts != [] {
      var n := |puts| - 1;
      AfterUnique(ks, l, puts[..n]);
      PutUnique(ks, l, After(ks, l, puts[..n]), n, puts[n]);
    }
  }

  /** A record present now was stored by its own put and has been present ever since. */
  lemma {:induction false} StoredSince(ks: Strategy, l: Limits, puts: seq<PutOp>, r: Rec)
    requires r in After(ks, l, puts)
    ensures r.serial < |puts|
    ensures var p := puts[r.serial]; r == Rec(r.serial, p.part, p.key, p.value, p.found, ks.size(p.key))
    ensures Find(ks, After(ks, l, puts[..r.serial]), r.part, r.key).None?
    ensures forall j :: r.serial < j <= |puts| ==> r in After(ks, l, puts[..j])
  {
    var n := |puts| - 1;
    var was := After(ks, l, puts[..n]);
    var p := puts[n];
    var all := was + [Rec(n, p.part, p.key, p.value, p.found, ks.size(p.key))];
    var k := TrimIs(l, all);
    assert r in was || (r == all[|was|] && Find(ks, was, p.part, p.key).None?);
    assert puts[..|puts|] == puts;
    if r in was {
      StoredSince(ks, l, puts[..n], r);
      assert puts[..n][..r.serial] == puts[..r.serial];
      forall j | r.serial < j <= |puts| ensures r in After(ks, l, puts[..j]) {
        if j <= n {
          assert puts[..n][..j] == puts[..j];
        }
      }
    }
  }

  /**
   A lookup finds exactly the first value put for (part, key) since it was last absent: the put that
   stored it found nothing, and nothing evicted it since.
   */
  lemma FindsFirstPut(ks: Strategy, l: Limits, puts: seq<PutOp>, part: string, key: Key)
    requires StrategyOk(ks)
    ensures var r := Find(ks, After(ks, l, puts), part, key);
            r.Some? ==>
              && r.value.serial < |puts|
              && var i := r.value.serial;
              && puts[i].part == part && ks.equal(puts[i].key, key) && puts[i].value == r.value.value
                 && puts[i].found == r.value.found
              && Find(ks, After(ks, l, puts[..i]), part, key).None?
              && forall j :: i < j <= |puts| ==> Find(ks, After(ks, l, puts[..j]), part, key) == r
  {
    var recs := After(ks, l, puts);
    var r := Find(ks, recs, part, key);
    FindIs(ks, recs, part, key);
    if r.Some? {
      StoredSince(ks, l, puts, r.value);
      var i := r.value.serial;
      SameIdentity(ks, After(ks, l, puts[..i]), r.value, part, key);
      forall j | i < j <= |puts| ensures Find(ks, After(ks, l, puts[..j]), part, key) == r {
        AfterUnique(ks, l, puts[..j]);
        FoundUnique(ks, After(ks, l, puts[..j]), r.value, part, key);
      }
    }
  }

  lemma SameIdentity(ks: Strategy, recs: seq<Rec>, r: Rec, part: string, key: Key)
    requires StrategyOk(ks) && Matches(ks, r, part, key)
    ensures Find(ks, recs, r.part, r.key).None? ==> Find(ks, recs, part, key).None?
  {
    FindIs(ks, recs, r.part, r.key);
    FindIs(ks, recs, part, key);
    forall i | 0 <= i < |recs| && Matches(ks, recs[i], part, key) ensures Matches(ks, recs[i], r.part, r.key) {
      assert ks.equal(recs[i].key, key) && ks.equal(key, r.key);
    }
  }

  lemma FoundUnique(ks: Strategy, recs: seq<Rec>, r: Rec, part: string, key: Key)
    requires StrategyOk(ks) && Unique(ks, recs) && r in recs && Matches(ks, r, part, key)
    ensures Find(ks, recs, part, key) == Some(r)
  {
    FindIs(ks, recs, part, key);
    var f := Find(ks, recs, part, key).value;
    var i :| 0 <= i < |recs| && recs[i] == r;
    var j :| 0 <= j < |recs| && recs[j] == f;
    assert ks.equal(r.key, key) && ks.equal(f.key, key) && ks.equal(key, f.key) && ks.equal(key, r.key);
    assert Matches(ks, r, f.part, f.key) && Matches(ks, f, r.part, r.key);
  }

  // ---------------------------------------------------------------- buckets

  /** The records filed under one hash, oldest first. */
  function Bucket(ks: Strategy, recs: seq<Rec>, h: Hash): (r: seq<Rec>) {
    if recs == [] then []
    else (if HashOf(ks, recs[0].part, recs[0].key) == h then [recs[0]] else []) + Bucket(ks, recs[1..], h)
  }

  lemma {:induction false} BucketAppend(ks: Strategy, recs: seq<Rec>, r: Rec, h: Hash)
    ensures Bucket(ks, recs + [r], h) == Bucket(ks, recs, h) + if HashOf(ks, r.part, r.key) == h then [r] else []
  {
    if recs == [] {
      assert recs + [r] == [r] && [r][1..] == [];
    } else {
      BucketAppend(ks, recs[1..], r, h);
      assert (recs + [r])[1..] == recs[1..] + [r];
    }
  }

  lemma {:induction false} TotalAppend(recs: seq<Rec>, r: Rec)
    ensures Total(recs + [r]) == Total(recs) + r.bytes
  {
    if recs == [] {
      assert recs + [r] == [r] && [r][1..] == [];
    } else {
      TotalAppend(recs[1..], r);
      assert (recs + [r])[1..] == recs[1..] + [r];
    }
  }

  /** Looking only in the bucket loses nothing, whatever else collides there. */
  lemma {:induction false} BucketFinds(ks: Strategy, recs: seq<Rec>, part: string, key: Key)
    requires StrategyOk(ks)
    ensures Find(ks, Bucket(ks, recs, HashOf(ks, part, key)), part, key) == Find(ks, recs, part, key)
  {
    if recs != [] {
      var h := HashOf(ks, part, key);
      var rest := Bucket(ks, recs[1..], h);
      BucketFinds(ks, recs[1..], part, key);
      if HashOf(ks, recs[0].part, recs[0].key) == h {
        assert ([recs[0]] + rest)[1..] == rest;
      } else {
        assert [] + rest == rest;
      }
    }
  }

  function Under(byHash: map<Hash, seq<Rec>>, h: Hash): (b: seq<Rec>) {
    if h in byHash then byHash[h] else []
  }

  /** Every bucket holds exactly the listed records with its hash, and no bucket is empty. */
  ghost predicate Filed(ks: Strategy, byHash: map<Hash, seq<Rec>>, order: seq<Rec>) {
    forall h :: FiledAt(ks, byHash, order, h)
  }

  ghost predicate FiledAt(ks: Strategy, byHash: map<Hash, seq<Rec>>, order: seq<Rec>, h: Hash) {
    Under(byHash, h) == Bucket(ks, order, h) && (h in byHash ==> byHash[h] != [])
  }

  ghost predicate Serials(order: seq<Rec>, next: nat) {
    && (forall i :: 0 <= i < |order| ==> order[i].serial < next)
    && (forall i, j :: 0 <= i < j < |order| ==> order[i].serial < order[j].serial)
  }

  lemma FileMore(ks: Strategy, byHash: map<Hash, seq<Rec>>, order: seq<Rec>, r: Rec)
    requires Filed(ks, byHash, order)
    ensures var h := HashOf(ks, r.part, r.key);
            Filed(ks, byHash[h := Under(byHash, h) + [r]], order + [r])
  {
    hide Bucket, HashOf;
    var h := HashOf(ks, r.part, r.key);
    var after, all := byHash[h := Under(byHash, h) + [r]], order + [r];
    forall g: Hash ensures FiledAt(ks, after, all, g) {
      assert FiledAt(ks, byHash, order, g) && FiledAt(ks, byHash, order, h);
      BucketAppend(ks, order, r, g);
    }
  }

  /** The oldest record heads its bucket, so removing it there is removing it from the list. */
  lemma FileLess(ks: Strategy, byHash: map<Hash, seq<Rec>>, order: seq<Rec>)
    requires Filed(ks, byHash, order) && order != []
    ensures var h := HashOf(ks, order[0].part, order[0].key); var b := Under(byHash, h);
            && b != [] && b[0] == order[0]
            && Filed(ks, if b[1..] == [] then byHash - {h} else byHash[h := b[1..]], order[1..])
  {
    hide HashOf, Bucket;
    var h := HashOf(ks, order[0].part, order[0].key);
    assert FiledAt(ks, byHash, order, h);
    BucketFirst(ks, order, h);
    var b, rest := Under(byHash, h), order[1..];
    assert b[1..] == Bucket(ks, rest, h);
    var after := if b[1..] == [] then byHash - {h} else byHash[h := b[1..]];
    forall g: Hash ensures FiledAt(ks, after, rest, g) {
      assert FiledAt(ks, byHash, order, g);
      BucketFirst(ks, order, g);
    }
  }

  lemma BucketFirst(ks: Strategy, order: seq<Rec>, g: Hash)
    requires order != []
    ensures var h := HashOf(ks, order[0].part, order[0].key);
            Bucket(ks, order, g) == if h == g then [order[0]] + Bucket(ks, order[1..], g) else Bucket(ks, order[1..], g)
  {
  }

  lemma MoreUnique(ks: Strategy, order: seq<Rec>, r: Rec, next: nat)
    requires Unique(ks, order) && Serials(order, next) && r.serial == next && Find(ks, order, r.part, r.key).None?
    ensures Unique(ks, order + [r]) && Serials(order + [r], next + 1)
  {
    hide Matches;
    FindIs(ks, order, r.part, r.key);
  }

  lemma LessUnique(ks: Strategy, order: seq<Rec>, next: nat)
    requires Unique(ks, order) && Serials(order, next) && order != []
    ensures Unique(ks, order[1..]) && Serials(order[1..], next)
  {
    hide Matches;
  }

  // ---------------------------------------------------------------- the table

  class MemoTable {
    const ks: Strategy
    var byHash: map<Hash, seq<Rec>>
    var order: seq<Rec>
    var bytes: int
    var next: nat

    /** Buckets and list hold the same records, one per identity, and `bytes` is their total. */
    ghost predicate Valid()
      reads this
    {
      StrategyOk(ks) && Unique(ks, order) && Serials(order, next) && Filed(ks, byHash, order) && bytes == Total(order)
    }

    constructor (ks: Strategy)
      requires StrategyOk(ks)
      ensures Valid() && this.ks == ks && order == [] && next == 0
    {
      this.ks := ks;
      byHash, order, bytes, next := map[], [], 0, 0;
    }

    method Get(part: string, key: Key) returns (r: Option<Rec>)
      requires Valid()
      ensures r == Find(ks, order, part, key)
    {
      BucketFinds(ks, order, part, key);
      assert FiledAt(ks, byHash, order, HashOf(ks, part, key));
      hide StrategyOk, Unique, Serials, Filed, Bucket, HashOf;
      var bucket := Under(byHash, HashOf(ks, part, key));
      for i := 0 to |bucket|
        invariant Find(ks, bucket, part, key) == Find(ks, bucket[i..], part, key)
      {
        assert bucket[i..][1..] == bucket[i + 1..];
        if Matches(ks, bucket[i], part, key) {
          return Some(bucket[i]);
        }
      }
      r := None;
    }

    method EvictOldest()
      requires Valid() && order != []
      modifies this`byHash, this`order, this`bytes
      ensures Valid() && order == old(order)[1..]
    {
      hide StrategyOk, Unique, Serials, Filed, HashOf;
      LessUnique(ks, order, next);
      var was := order[0];
      order := order[1..];
      bytes := bytes - was.bytes;
      var h := HashOf(ks, was.part, was.key);
      var bucket := Under(byHash, h);
      var i := 0;
      while i < |bucket| && bucket[i].serial != was.serial
        invariant 0 <= i <= |bucket| && forall j :: 0 <= j < i ==> bucket[j].serial != was.serial
      {
        i := i + 1;
      }
      FileLess(ks, byHash, old(order));
      bucket := bucket[..i] + bucket[i + 1..];
      assert bucket == Under(byHash, h)[1..];
      if |bucket| == 0 {
        byHash := byHash - {h};
      } else {
        byHash := byHash[h := bucket];
      }
    }

    /** Keeps the record already stored for this identity; otherwise appends one and evicts the oldest as needed. */
    method Put(part: string, key: Key, value: Value, found: bool, l: Limits)
      requires Valid()
      modifies this
      ensures Valid() && next == old(next) + 1
      ensures order == AfterPut(ks, l, old(order), old(next), PutOp(part, key, value, found))
    {
      var was := Get(part, key);
      next := next + 1;
      if was.Some? {
        return;
      }
      var rec := Rec(next - 1, part, key, value, found, ks.size(key));
      FileMore(ks, byHash, order, rec);
      MoreUnique(ks, order, rec, next - 1);
      TotalAppend(order, rec);
      hide StrategyOk, Unique, Serials, Filed, HashOf, Find, Total;
      var h := HashOf(ks, part, key);
      byHash := byHash[h := Under(byHash, h) + [rec]];
      order := order + [rec];
      bytes := bytes + rec.bytes;
      while |order| > l.maxItems || (l.maxBytes > 0 && bytes > l.maxBytes)
        invariant Valid() && next == old(next) + 1
        invariant Trim(l, order) == Trim(l, old(order) + [rec])
        decreases |order|
      {
        if |order| == 0 {
          break;
        }
        EvictOldest();
      }
    }
  }
}
