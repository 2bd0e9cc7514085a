/** The ascending enumeration that Go's sort.Ints gives a set of indices. */
module IntOrder {

  ghost predicate Ascending(s: seq<int>) {
    forall i, j :: 0 <= i < j < |s| ==> s[i] < s[j]
  }

  ghost predicate Least(m: int, ks: set<int>) {
    m in ks && forall k :: k in ks ==> m <= k
  }

  lemma NotEmpty(ks: set<int>)
    requires ks != {}
    ensures exists x :: x in ks
  {
    if forall x :: x !in ks { assert false; }
  }

  lemma {:induction false} LeastExists(ks: set<int>)
    requires ks != {}
    ensures exists m :: Least(m, ks)
  {
    NotEmpty(ks);
    var x :| x in ks;
    var rest := ks - {x};
    if rest == {} {
      forall k | k in ks ensures k == x { assert k in rest || k == x; }
      assert Least(x, ks);
    } else {
      LeastExists(rest);
      var m :| Least(m, rest);
      forall k | k in ks ensures (if x < m then x else m) <= k { assert k in rest || k == x; }
      assert Least(if x < m then x else m, ks);
    }
  }

  /** The populated bucket indices in ascending order. */
  ghost function Asc(ks: set<int>): (r: seq<int>)
    ensures forall k :: k in r <==> k in ks
    ensures Ascending(r)
  {
    if ks == {} then [] else
      LeastExists(ks);
      var m :| Least(m, ks);
      [m] + Asc(ks - {m})
  }

  method SortInts(ks: set<int>) returns (r: seq<int>)
    ensures r == Asc(ks)
  {
    hide Asc, Ascending;
    r := [];
    var rest := ks;
    assert r + Asc(rest) == Asc(ks);
    while rest != {}
      invariant rest <= ks && r + Asc(rest) == Asc(ks)
      decreases rest
    {
      var m := TakeLeast(rest);
      AscHead(rest, m);
      assert r + ([m] + Asc(rest - {m})) == r + [m] + Asc(rest - {m});
      r := r + [m];
      rest := rest - {m};
    }
    AscNone();
    assert r + [] == r;
  }

  method TakeLeast(ks: set<int>) returns (m: int)
    requires ks != {}
    ensures Least(m, ks)
  {
    NotEmpty(ks);
    m :| m in ks;
    var todo := ks - {m};
    while todo != {}
      invariant m in ks && todo <= ks && forall k :: k in ks && k !in todo ==> m <= k
      decreases todo
    {
      NotEmpty(todo);
      var k :| k in todo;
      if k < m { m := k; }
      todo := todo - {k};
    }
  }

  lemma AscNone()
    ensures Asc({}) == []
  {
  }

  lemma AscHead(ks: set<int>, m: int)
    requires Least(m, ks)
    ensures Asc(ks) == [m] + Asc(ks - {m})
  {
    LeastExists(ks);
  }
}
