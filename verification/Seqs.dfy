/** Sequence facts shared by the models: distinctness, removal of one element, subsequences. */
module Seqs {

  datatype Option<+T> = None | Some(value: T)

  ghost predicate Distinct<T>(s: seq<T>) {
    forall i, j :: 0 <= i < j < |s| ==> s[i] != s[j]
  }

  /** The elements of `s` as a set. */
  ghost function Elems<T>(s: seq<T>): set<T> {
    set x | x in s
  }

  /** `a` is what is left of `b` after deleting some of its elements, order kept. */
  ghost predicate Subseq<T>(a: seq<T>, b: seq<T>) {
    if b == [] then a == []
    else Subseq(a, b[..|b| - 1]) || (a != [] && a[|a| - 1] == b[|b| - 1] && Subseq(a[..|a| - 1], b[..|b| - 1]))
  }

  lemma SubseqSkip<T>(a: seq<T>, b: seq<T>, x: T)
    requires Subseq(a, b)
    ensures Subseq(a, b + [x])
  {
    assert (b + [x])[..|b|] == b;
  }

  lemma SubseqTake<T>(a: seq<T>, b: seq<T>, x: T)
    requires Subseq(a, b)
    ensures Subseq(a + [x], b + [x])
  {
    assert (b + [x])[..|b|] == b && (a + [x])[..|a|] == a;
  }

  lemma {:induction false} SubseqIn<T>(a: seq<T>, b: seq<T>, x: T)
    requires Subseq(a, b) && x in a
    ensures x in b
  {
    if b != [] {
      var b' := b[..|b| - 1];
      if Subseq(a, b') {
        SubseqIn(a, b', x);
      } else if x != a[|a| - 1] {
        assert x in a[..|a| - 1];
        SubseqIn(a[..|a| - 1], b', x);
      }
    }
  }

  lemma SubseqShorter<T>(a: seq<T>, b: seq<T>)
    requires Subseq(a, b)
    ensures |a| <= |b|
  {
  }

  /** Two elements of a subsequence stand in the same order in the sequence. */
  lemma {:induction false} SubseqOrder<T>(a: seq<T>, b: seq<T>, x: nat, y: nat) returns (i: nat, j: nat)
    requires Subseq(a, b) && x < y < |a|
    ensures i < j < |b| && b[i] == a[x] && b[j] == a[y]
  {
    var n := |b| - 1;
    if Subseq(a, b[..n]) {
      i, j := SubseqOrder(a, b[..n], x, y);
    } else if y == |a| - 1 {
      i := SubseqPlace(a[..y], b[..n], x);
      j := n;
    } else {
      i, j := SubseqOrder(a[..|a| - 1], b[..n], x, y);
    }
  }

  lemma {:induction false} SubseqPlace<T>(a: seq<T>, b: seq<T>, x: nat) returns (i: nat)
    requires Subseq(a, b) && x < |a|
    ensures i < |b| && b[i] == a[x]
  {
    var n := |b| - 1;
    if Subseq(a, b[..n]) {
      i := SubseqPlace(a, b[..n], x);
    } else if x == |a| - 1 {
      i := n;
    } else {
      i := SubseqPlace(a[..|a| - 1], b[..n], x);
    }
  }

  lemma {:induction false} PrefixSubseq<T>(a: seq<T>, b: seq<T>)
    requires a <= b
    ensures Subseq(a, b)
  {
    if |a| < |b| {
      PrefixSubseq(a, b[..|b| - 1]);
    } else {
      assert a == b;
      SelfSubseq(b);
    }
  }

  lemma {:induction false} SubseqDistinct<T>(a: seq<T>, b: seq<T>)
    requires Subseq(a, b) && Distinct(b)
    ensures Distinct(a)
  {
    if b != [] {
      var b' := b[..|b| - 1];
      if Subseq(a, b') {
        SubseqDistinct(a, b');
      } else {
        var a' := a[..|a| - 1];
        SubseqDistinct(a', b');
        forall i | 0 <= i < |a'| ensures a'[i] != a[|a| - 1] {
          SubseqIn(a', b', a'[i]);
        }
      }
    }
  }

  /** Removes the first occurrence of `x`, if any. */
  function RemoveFirst(s: seq<nat>, x: nat): (r: seq<nat>) {
    if s == [] then []
    else if s[0] == x then s[1..]
    else [s[0]] + RemoveFirst(s[1..], x)
  }

  lemma {:induction false} RemoveFirstAt(s: seq<nat>, x: nat, i: nat)
    requires i < |s| && s[i] == x && x !in s[..i]
    ensures RemoveFirst(s, x) == s[..i] + s[i + 1..]
  {
    if i > 0 {
      assert s[0] == s[..i][0];
      assert s[1..][..i - 1] == s[..i][1..];
      RemoveFirstAt(s[1..], x, i - 1);
    }
  }

  lemma {:induction false} RemoveFirstAbsent(s: seq<nat>, x: nat)
    requires x !in s
    ensures RemoveFirst(s, x) == s
  {
    if s != [] {
      RemoveFirstAbsent(s[1..], x);
    }
  }

  /** On a list without duplicates, removal takes out exactly that element. */
  lemma {:induction false} RemoveFirstDistinct(s: seq<nat>, x: nat)
    requires Distinct(s)
    ensures Distinct(RemoveFirst(s, x))
    ensures forall y :: y in RemoveFirst(s, x) <==> y in s && y != x
    ensures Subseq(RemoveFirst(s, x), s)
  {
    if x in s {
      var i :| 0 <= i < |s| && s[i] == x;
      RemoveFirstAt(s, x, i);
      CutSubseq(s, i);
      SubseqDistinct(s[..i] + s[i + 1..], s);
    } else {
      RemoveFirstAbsent(s, x);
      SelfSubseq(s);
    }
  }

  lemma {:induction false} SelfSubseq<T>(s: seq<T>)
    ensures Subseq(s, s)
  {
    if s != [] {
      SelfSubseq(s[..|s| - 1]);
    }
  }

  lemma {:induction false} CutSubseq<T>(s: seq<T>, i: nat)
    requires i < |s|
    ensures Subseq(s[..i] + s[i + 1..], s)
    decreases |s|
  {
    var t := s[..|s| - 1];
    if i == |t| {
      assert s[..i] + s[i + 1..] == t;
      SelfSubseq(t);
      SubseqSkip(t, t, s[i]);
      assert t + [s[i]] == s;
    } else {
      CutSubseq(t, i);
      var cut := t[..i] + t[i + 1..];
      SubseqTake(cut, t, s[|t|]);
      assert t + [s[|t|]] == s;
      assert cut + [s[|t|]] == s[..i] + s[i + 1..];
    }
  }

  /** A list without duplicates is as long as its set of elements. */
  lemma {:induction false} DistinctSize<T>(s: seq<T>)
    requires Distinct(s)
    ensures |Elems(s)| == |s|
  {
    if s == [] {
      assert Elems(s) == {};
    } else {
      var n := |s| - 1;
      DistinctSize(s[..n]);
      assert Elems(s) == Elems(s[..n]) + {s[n]} by {
        assert forall x :: x in s <==> x in s[..n] || x == s[n];
      }
    }
  }

  lemma {:induction false} SubsetSize<T>(a: set<T>, b: set<T>)
    requires a <= b
    ensures |a| <= |b|
    ensures |a| == |b| ==> a == b
  {
    if a != {} {
      var x :| x in a;
      SubsetSize(a - {x}, b - {x});
    }
  }

  /** A list longer than the set it draws from repeats an element. */
  lemma Pigeonhole<T>(s: seq<T>, u: set<T>) returns (i: nat, j: nat)
    requires |s| > |u| && forall x :: x in s ==> x in u
    ensures i < j < |s| && s[i] == s[j]
  {
    if Distinct(s) {
      DistinctSize(s);
      SubsetSize(Elems(s), u);
    }
    i, j :| 0 <= i < j < |s| && s[i] == s[j];
  }
}
