/** Byte-wise string order and the sorted enumeration that Go's sort.Strings gives a key set. */
module StringOrder {
  import opened Seqs

  predicate Less(a: string, b: string) {
    if b == [] then false
    else if a == [] then true
    else a[0] < b[0] || (a[0] == b[0] && Less(a[1..], b[1..]))
  }

  lemma {:induction false} LessTotal(a: string, b: string)
    ensures Less(a, b) || a == b || Less(b, a)
    ensures !(Less(a, b) && Less(b, a)) && !Less(a, a)
    decreases |a|
  {
    if a != [] {
      LessTotal(a[1..], a[1..]);
      if b != [] && a[0] == b[0] {
        LessTotal(a[1..], b[1..]);
        assert a == [a[0]] + a[1..] && b == [b[0]] + b[1..];
      }
    }
  }

  lemma {:induction false} LessTrans(a: string, b: string, c: string)
    requires Less(a, b) && Less(b, c)
    ensures Less(a, c)
    decreases |a|
  {
    if a != [] && a[0] == b[0] == c[0] {
      LessTrans(a[1..], b[1..], c[1..]);
    }
  }

  ghost predicate Sorted(s: seq<string>) {
    forall i, j :: 0 <= i < j < |s| ==> Less(s[i], s[j])
  }

  ghost predicate IsMin(m: string, ks: set<string>) {
    m in ks && forall k :: k in ks && k != m ==> Less(m, k)
  }

  lemma {:induction false} MinExists(ks: set<string>)
    requires ks != {}
    ensures exists m :: IsMin(m, ks)
  {
    var x :| x in ks;
    var rest := ks - {x};
    if rest == {} {
      forall k | k in ks ensures k == x { assert k in rest || k == x; }
      assert IsMin(x, ks);
    } else {
      MinExists(rest);
      var m :| IsMin(m, rest);
      LessTotal(x, m);
      if Less(x, m) {
        forall k | k in ks && k != x ensures Less(x, k) {
          if k != m { LessTrans(x, m, k); }
        }
        assert IsMin(x, ks);
      } else {
        assert IsMin(m, ks);
      }
    }
  }

  /** The keys of `ks` in ascending order. */
  ghost function SortedKeys(ks: set<string>): (r: seq<string>)
    ensures forall k :: k in r <==> k in ks
    ensures Distinct(r)
  {
    if ks == {} then [] else
      MinExists(ks);
      var m :| IsMin(m, ks);
      [m] + SortedKeys(ks - {m})
  }

  lemma {:induction false} SortedKeysSorted(ks: set<string>)
    ensures Sorted(SortedKeys(ks))
  {
    if ks != {} {
      MinExists(ks);
      var r := SortedKeys(ks);
      var m := r[0];
      assert IsMin(m, ks) && r[1..] == SortedKeys(ks - {m});
      SortedKeysSorted(ks - {m});
      forall j | 0 < j < |r| ensures Less(r[0], r[j]) {
        assert r[j] == r[1..][j - 1] && r[1..][j - 1] in ks - {m};
      }
      forall i, j | 0 < i < j < |r| ensures Less(r[i], r[j]) {
        assert r[i] == r[1..][i - 1] && r[j] == r[1..][j - 1];
      }
    }
  }

  lemma SortedTail(a: seq<string>, ks: set<string>)
    requires Sorted(a) && Elems(a) == ks && a != []
    ensures IsMin(a[0], ks) && Sorted(a[1..]) && Elems(a[1..]) == ks - {a[0]}
  {
    assert a[0] in a;
    forall k | k in ks && k != a[0] ensures Less(a[0], k) && k in a[1..] {
      var j :| 0 <= j < |a| && a[j] == k;
      assert a[1..][j - 1] == k;
    }
    forall k | k in a[1..] ensures k in a && k != a[0] {
      var j :| 0 <= j < |a| - 1 && a[1..][j] == k;
      assert a[j + 1] == k;
      LessTotal(a[0], a[0]);
    }
    forall i, j | 0 <= i < j < |a| - 1 ensures Less(a[1..][i], a[1..][j]) {
      assert a[1..][i] == a[i + 1] && a[1..][j] == a[j + 1];
    }
  }

  lemma MinUnique(a: string, b: string, ks: set<string>)
    requires IsMin(a, ks) && IsMin(b, ks)
    ensures a == b
  {
    LessTotal(a, b);
  }

  /** An ascending list is determined by its elements. */
  lemma {:induction false} SortedUnique(a: seq<string>, ks: set<string>)
    requires Sorted(a) && Elems(a) == ks
    ensures a == SortedKeys(ks)
    decreases |a|
  {
    hide Sorted, IsMin;
    if a == [] {
      assert ks == {};
    } else {
      assert a[0] in ks;
      SortedTail(a, ks);
      var r := SortedKeys(ks);
      SortedHead(ks);
      MinUnique(a[0], r[0], ks);
      SortedUnique(a[1..], ks - {a[0]});
      assert a == [a[0]] + a[1..] && r == [r[0]] + r[1..];
    }
  }

  lemma SortedHead(ks: set<string>)
    requires ks != {}
    ensures var r := SortedKeys(ks); r != [] && IsMin(r[0], ks) && r[1..] == SortedKeys(ks - {r[0]})
  {
    MinExists(ks);
  }

  /** Sorts a key set the way the runtime does: collect, then repeatedly take the least. */
  method SortKeys(ks: set<string>) returns (r: seq<string>)
    ensures r == SortedKeys(ks)
  {
    r := [];
    var rest := ks;
    while rest != {}
      invariant rest <= ks
      invariant Elems(r) == ks - rest
      invariant Sorted(r)
      invariant forall i, k :: 0 <= i < |r| && k in rest ==> Less(r[i], k)
      decreases rest
    {
      var m :| m in rest;
      var todo := rest - {m};
      while todo != {}
        invariant m in rest && todo <= rest
        invariant forall k :: k in rest && k !in todo && k != m ==> Less(m, k)
        decreases todo
      {
        var k :| k in todo;
        LessTotal(m, k);
        if Less(k, m) {
          forall j | j in rest && j !in todo - {k} && j != k ensures Less(k, j) {
            if j != m { LessTrans(k, m, j); }
          }
          m := k;
        }
        todo := todo - {k};
      }
      forall k ensures k in Elems(r + [m]) <==> k in Elems(r) || k == m {
        assert (r + [m])[|r|] == m;
      }
      assert Elems(r + [m]) == Elems(r) + {m};
      r := r + [m];
      rest := rest - {m};
    }
    SortedUnique(r, ks);
  }

  // ---------------------------------------------------------------- sorting lists

  ghost predicate IsOrder(le: (string, string) -> bool) {
    && (forall a, b :: le(a, b) || le(b, a))
    && (forall a, b, c :: le(a, b) && le(b, c) ==> le(a, c))
  }

  ghost predicate SortedBy(s: seq<string>, le: (string, string) -> bool) {
    forall i, j :: 0 <= i < j < |s| ==> le(s[i], s[j])
  }

  /** Sorts a list, duplicates kept, by repeated insertion. */
  method SortBy(s: seq<string>, le: (string, string) -> bool) returns (r: seq<string>)
    requires IsOrder(le)
    ensures multiset(r) == multiset(s) && SortedBy(r, le)
  {
    hide IsOrder, SortedBy;
    r := [];
    assert SortedBy(r, le) by { NothingSorted(le); }
    for i := 0 to |s|
      invariant multiset(r) == multiset(s[..i]) && SortedBy(r, le)
    {
      assert s[..i + 1] == s[..i] + [s[i]];
      r := Insert(r, s[i], le);
    }
    assert s[..|s|] == s;
  }

  lemma NothingSorted(le: (string, string) -> bool)
    ensures SortedBy([], le)
  {
  }

  method Insert(r: seq<string>, x: string, le: (string, string) -> bool) returns (t: seq<string>)
    requires IsOrder(le) && SortedBy(r, le)
    ensures multiset(t) == multiset(r) + multiset{x} && SortedBy(t, le)
  {
    hide SortedBy;
    var k := |r|;
    while k > 0 && !le(r[k - 1], x)
      invariant 0 <= k <= |r|
      invariant forall j :: k <= j < |r| ==> le(x, r[j])
    {
      k := k - 1;
    }
    InsertSorted(r, k, x, le);
    assert r == r[..k] + r[k..];
    t := r[..k] + [x] + r[k..];
  }

  lemma InsertSorted(r: seq<string>, k: nat, x: string, le: (string, string) -> bool)
    requires IsOrder(le) && SortedBy(r, le) && k <= |r|
    requires k > 0 ==> le(r[k - 1], x)
    requires forall j :: k <= j < |r| ==> le(x, r[j])
    ensures SortedBy(r[..k] + [x] + r[k..], le)
  {
    var t := r[..k] + [x] + r[k..];
    forall i, j | 0 <= i < j < |t| ensures le(t[i], t[j]) {
      assert i < k - 1 ==> le(r[i], r[k - 1]);
    }
  }

  predicate AtMost(a: string, b: string) { !Less(b, a) }

  lemma AtMostOrder()
    ensures IsOrder(AtMost)
  {
    forall a, b ensures AtMost(a, b) || AtMost(b, a) { LessTotal(a, b); }
    forall a, b, c | AtMost(a, b) && AtMost(b, c) ensures AtMost(a, c) {
      LessTotal(a, b);
      LessTotal(b, c);
      LessTotal(a, c);
      if Less(a, b) && Less(b, c) { LessTrans(a, b, c); }
    }
  }
}
