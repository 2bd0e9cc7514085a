/**
 What a memo table forgets: a stored result is found until newer results leave no room for it, and
 only a result too large for the table by itself is not found after its own put.
 */
module MemoEviction {
  import opened Seqs
  import opened Wire
  import opened Memo

  function Stored(ks: Strategy, serial: nat, p: PutOp): (r: Rec) {
    Rec(serial, p.part, p.key, p.value, p.found, ks.size(p.key))
  }

  /** Fewer records need less room. */
  lemma {:induction false} WithinTail(l: Limits, recs: seq<Rec>, i: nat, j: nat)
    requires i <= j <= |recs| && Within(l, recs[i..])
    ensures Within(l, recs[j..])
    decreases j - i
  {
    if i < j {
      assert recs[i..][1..] == recs[i + 1..];
      WithinTail(l, recs, i + 1, j);
    }
  }

  /** Of a list being trimmed, exactly the records remain that fit together with all newer ones. */
  lemma TrimKeeps(l: Limits, recs: seq<Rec>) returns (n: nat)
    ensures n <= |recs| && Trim(l, recs) == recs[n..]
    ensures forall i :: 0 <= i < |recs| ==> (n <= i <==> Within(l, recs[i..]))
  {
    n := TrimIs(l, recs);
    forall i | n <= i < |recs| ensures Within(l, recs[i..]) {
      WithinTail(l, recs, n, i);
    }
  }

  /** A record by itself is within the limits. */
  predicate FitsAlone(l: Limits, size: nat) {
    l.maxItems >= 1 && (l.maxBytes > 0 ==> size <= l.maxBytes)
  }

  /**
   After a put the identity is found: with the record it already had, or with the new one, unless that
   one alone exceeds the limits, and then the table is empty.
   */
  lemma PutFinds(ks: Strategy, l: Limits, recs: seq<Rec>, serial: nat, p: PutOp)
    requires StrategyOk(ks) && Unique(ks, recs)
    ensures var was, now := Find(ks, recs, p.part, p.key), AfterPut(ks, l, recs, serial, p);
            && (was.Some? ==> now == recs)
            && (was.None? && FitsAlone(l, ks.size(p.key)) ==>
                  now != [] && now[|now| - 1] == Stored(ks, serial, p)
                  && Find(ks, now, p.part, p.key) == Some(Stored(ks, serial, p)))
            && (was.None? && !FitsAlone(l, ks.size(p.key)) ==> now == [])
  {
    var r := Stored(ks, serial, p);
    var all := recs + [r];
    if Find(ks, recs, p.part, p.key).None? {
      var n := TrimKeeps(l, all);
      assert all[|recs|..] == [r] && [r][1..] == [];
      assert Total([r]) == r.bytes + Total([r][1..]);
      assert Within(l, [r]) <==> FitsAlone(l, r.bytes);
      if FitsAlone(l, r.bytes) {
        assert all[n..][|recs| - n] == r;
        PutUnique(ks, l, recs, serial, p);
        FoundUnique(ks, all[n..], r, p.part, p.key);
      }
    }
  }

  // ---------------------------------------------------------------- over a history

  /** Put number `j` stores a new record, and with it the record for (part, key) no longer fits. */
  ghost predicate Crowds(ks: Strategy, l: Limits, puts: seq<PutOp>, j: int, part: string, key: Key) {
    && 0 <= j < |puts| && var was := After(ks, l, puts[..j]);
    && Find(ks, was, puts[j].part, puts[j].key).None?
    && exists i :: 0 <= i < |was| && Displaced(ks, l, was, Stored(ks, j, puts[j]), i, part, key)
  }

  /** Record `i` is for (part, key), and it, the newer ones and `r` together exceed the limits. */
  ghost predicate Displaced(ks: Strategy, l: Limits, was: seq<Rec>, r: Rec, i: nat, part: string, key: Key)
    requires i < |was|
  {
    Matches(ks, was[i], part, key) && !Within(l, (was + [r])[i..])
  }

  lemma GoneByOne(ks: Strategy, l: Limits, was: seq<Rec>, serial: nat, p: PutOp, part: string, key: Key)
    requires Find(ks, was, part, key).Some? && Find(ks, AfterPut(ks, l, was, serial, p), part, key).None?
    ensures Find(ks, was, p.part, p.key).None?
    ensures exists i :: 0 <= i < |was| && Displaced(ks, l, was, Stored(ks, serial, p), i, part, key)
  {
    FindIs(ks, was, part, key);
    var r := Find(ks, was, part, key).value;
    var i :| 0 <= i < |was| && was[i] == r;
    var all := was + [Stored(ks, serial, p)];
    var n := TrimKeeps(l, all);
    assert n <= i ==> r in all[n..] by {
      if n <= i { assert all[n..][i - n] == r; }
    }
    FindIs(ks, AfterPut(ks, l, was, serial, p), part, key);
    assert Displaced(ks, l, was, Stored(ks, serial, p), i, part, key);
  }

  /** A result found at some point and absent later was crowded out in between. */
  lemma {:induction false} GoneOnlyCrowded(ks: Strategy, l: Limits, puts: seq<PutOp>, n: nat, part: string, key: Key)
    requires n <= |puts| && Find(ks, After(ks, l, puts[..n]), part, key).Some?
    requires Find(ks, After(ks, l, puts), part, key).None?
    ensures exists j :: n <= j && Crowds(ks, l, puts, j, part, key)
  {
    hide Find, AfterPut, Displaced;
    assert puts[..|puts|] == puts;
    var m := |puts| - 1;
    assert puts[..m][..n] == puts[..n];
    if Find(ks, After(ks, l, puts[..m]), part, key).Some? {
      GoneByOne(ks, l, After(ks, l, puts[..m]), m, puts[m], part, key);
      assert Crowds(ks, l, puts, m, part, key);
    } else {
      GoneOnlyCrowded(ks, l, puts[..m], n, part, key);
      var j :| n <= j && Crowds(ks, l, puts[..m], j, part, key);
      assert puts[..m][..j] == puts[..j];
      assert Crowds(ks, l, puts, j, part, key);
    }
  }
}
