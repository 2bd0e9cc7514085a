/**
 The SQL types of the emitted plan. Unnesting casts the array bound to a placeholder; the batch query
 then returns what the scalar query returns for keys cast to the types declared for their predicates.
 */
module SqlTypes {
  import opened Seqs
  import opened SqlSynth

  /** The element type the plan casts the array bound to placeholder `n` to. */
  function CastOf(requested: seq<Requested>, n: int): (ty: Option<string>) {
    if requested == [] then None
    else if requested[0].param == n then Some(requested[0].keyType)
    else CastOf(requested[1..], n)
  }

  /** The arrays as unnest sees them, for a reading of casts to named types. */
  function CastArrays(cast: (string, SqlValue) -> SqlValue, p: Plan,
                      arrays: seq<seq<SqlValue>>): (r: seq<seq<SqlValue>>) {
    seq(|arrays|, c requires 0 <= c < |arrays| =>
      var ty := CastOf(p.requested, c + 1);
      seq(|arrays[c]|, i requires 0 <= i < |arrays[c]| =>
        if ty.Some? then cast(ty.value, arrays[c][i]) else arrays[c][i]))
  }

  /** `typed` is `key` with every component cast to the type declared for the predicate that uses it. */
  ghost predicate Coerced(cast: (string, SqlValue) -> SqlValue, inp: Input, key: seq<SqlValue>, typed: seq<SqlValue>) {
    && |typed| == |key| == |inp.query.keys| == |inp.keyTypes|
    && forall k :: 0 <= k < |inp.query.keys| ==> CoercedAt(cast, inp, key, typed, k)
  }

  ghost predicate CoercedAt(cast: (string, SqlValue) -> SqlValue, inp: Input, key: seq<SqlValue>, typed: seq<SqlValue>,
                            k: nat)
    requires k < |inp.query.keys| == |inp.keyTypes|
  {
    var n := inp.query.keys[k].param;
    1 <= n <= |key| && n <= |typed| && typed[n - 1] == cast(inp.keyTypes[k], key[n - 1])
  }

  lemma {:induction false} CastFound(requested: seq<Requested>, k: nat)
    requires k < |requested| && forall i, j :: 0 <= i < j < |requested| ==> requested[i].param != requested[j].param
    ensures CastOf(requested, requested[k].param) == Some(requested[k].keyType)
  {
    if k > 0 {
      assert requested[0].param != requested[k].param;
      CastFound(requested[1..], k - 1);
    }
  }

  /** The array bound to the placeholder of a key predicate is cast to the type declared for that predicate. */
  lemma PlanCasts(inp: Input, k: nat)
    requires Parsed(inp.query) && |inp.keyTypes| == |inp.query.keys| && k < |inp.query.keys|
    ensures CastOf(PlanOf(inp).requested, inp.query.keys[k].param) == Some(inp.keyTypes[k])
  {
    CastFound(PlanOf(inp).requested, k);
  }

  /** Every placeholder $1 to $n is used by a key predicate. */
  lemma PlaceholderUsed(q: ParsedQuery, n: int) returns (k: nat)
    requires Parsed(q) && 1 <= n <= |q.keys|
    ensures k < |q.keys| && q.keys[k].param == n
  {
    var params := seq(|q.keys|, i requires 0 <= i < |q.keys| => q.keys[i].param);
    DistinctSize(params);
    SubsetSize(Elems(params), UpTo(|q.keys|));
    assert n in Elems(params);
    k :| 0 <= k < |params| && params[k] == n;
  }

  function UpTo(n: nat): (r: set<int>)
    ensures |r| == n && forall m :: m in r <==> 1 <= m <= n
  {
    if n == 0 then {} else UpTo(n - 1) + {n}
  }

  ghost predicate AllCoerced(cast: (string, SqlValue) -> SqlValue, inp: Input, keys: seq<seq<SqlValue>>,
                             typed: seq<seq<SqlValue>>)
  {
    |typed| == |keys| && forall i :: 0 <= i < |keys| ==> Coerced(cast, inp, keys[i], typed[i])
  }

  /** Casting the arrays is casting the keys. */
  lemma ArraysCast(cast: (string, SqlValue) -> SqlValue, inp: Input, keys: seq<seq<SqlValue>>,
                   typed: seq<seq<SqlValue>>)
    requires Parsed(inp.query) && AllCoerced(cast, inp, keys, typed) && |inp.keyTypes| == |inp.query.keys|
    ensures Keyed(keys, |inp.query.keys|) && Keyed(typed, |inp.query.keys|)
    ensures CastArrays(cast, PlanOf(inp), Arrays(keys, |inp.query.keys|)) == Arrays(typed, |inp.query.keys|)
  {
    var w := |inp.query.keys|;
    var a, b := CastArrays(cast, PlanOf(inp), Arrays(keys, w)), Arrays(typed, w);
    forall c | 0 <= c < w ensures a[c] == b[c] {
      var k := PlaceholderUsed(inp.query, c + 1);
      PlanCasts(inp, k);
      hide PlanOf, Parsed, CastOf;
      forall i | 0 <= i < |keys| ensures a[c][i] == b[c][i] {
        assert CoercedAt(cast, inp, keys[i], typed[i], k);
      }
    }
  }

  /** Whatever casting means, the batch query on uncast keys is the scalar query on the cast ones. */
  lemma TypedBatchIsScalars(db: Database, inp: Input, cast: (string, SqlValue) -> SqlValue, keys: seq<seq<SqlValue>>,
                            typed: seq<seq<SqlValue>>)
    requires Parsed(inp.query) && JoinsBase(inp.query) && |inp.keyTypes| == |inp.query.keys|
    requires AllCoerced(cast, inp, keys, typed)
    ensures Keyed(keys, |inp.query.keys|)
    ensures Batch(db, PlanOf(inp), CastArrays(cast, PlanOf(inp), Arrays(keys, |inp.query.keys|)), |keys|) ==
            ExpectedAll(db, inp.query, typed)
  {
    ArraysCast(cast, inp, keys, typed);
    hide *;
    BatchIsScalars(db, inp, typed, |keys|);
    assert typed[..|typed|] == typed;
  }

  /** Every key has its cast, so the theorem above covers every list of keys. */
  lemma CoercedExists(cast: (string, SqlValue) -> SqlValue, inp: Input,
                      key: seq<SqlValue>) returns (typed: seq<SqlValue>)
    requires Parsed(inp.query) && |inp.keyTypes| == |inp.query.keys| == |key|
    ensures Coerced(cast, inp, key, typed)
  {
    typed := seq(|key|, c requires 0 <= c < |key| =>
      var ty := CastOf(PlanOf(inp).requested, c + 1);
      if ty.Some? then cast(ty.value, key[c]) else key[c]);
    forall k | 0 <= k < |inp.query.keys| ensures CoercedAt(cast, inp, key, typed, k) {
      PlanCasts(inp, k);
    }
  }
}
