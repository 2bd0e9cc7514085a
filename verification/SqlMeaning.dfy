/**
 The parts of the rewriting told in raw terms: which type names are safe, what the single-key shortcuts
 stand for, what the plan names, and which rows the relational operators keep.
 */
module SqlMeaning {
  import opened Seqs
  import opened SqlSynth

  // ---------------------------------------------------------------- type names

  /** The parts between the dots. */
  function Parts(s: string): (r: seq<string>)
    ensures r != []
  {
    if s == [] then [""]
    else
      var before := Parts(s[..|s| - 1]);
      if s[|s| - 1] == '.' then before + [""]
      else before[..|before| - 1] + [before[|before| - 1] + [s[|s| - 1]]]
  }

  predicate Identifier(p: string) {
    && p != []
    && (forall i :: 0 <= i < |p| ==> '0' <= p[i] <= '9' || 'A' <= p[i] <= 'Z' || 'a' <= p[i] <= 'z' || p[i] == '_')
    && !('0' <= p[0] <= '9')
  }

  /** All parts but the last are identifiers, and the last is one or still empty. */
  ghost predicate Begun(parts: seq<string>) {
    && parts != []
    && (forall i :: 0 <= i < |parts| - 1 ==> Identifier(parts[i]))
    && (parts[|parts| - 1] == [] || Identifier(parts[|parts| - 1]))
  }

  ghost predicate SafeSoFar(s: string) {
    forall i :: 0 <= i < |s| ==> CharOk(s, i)
  }

  predicate CharOk(s: string, i: nat)
    requires i < |s|
  {
    if s[i] == '.' then i > 0 && s[i - 1] != '.' else TypeChar(s[i], i == 0 || s[i - 1] == '.')
  }

  lemma {:induction false} SoFar(s: string)
    ensures SafeSoFar(s) <==> Begun(Parts(s))
    ensures Parts(s)[|Parts(s)| - 1] == [] <==> s == [] || s[|s| - 1] == '.'
  {
    if s != [] {
      var n := |s| - 1;
      var t, c := s[..n], s[n];
      SoFar(t);
      SoFarStep(s);
      var was, now := Parts(t), Parts(s);
      var last := was[|was| - 1];
      if c == '.' {
        assert forall i :: 0 <= i < |was| ==> now[i] == was[i];
      } else {
        assert forall i :: 0 <= i < |was| - 1 ==> now[i] == was[i];
        assert now[|now| - 1] == last + [c];
        GrownIdentifier(last, c);
      }
    }
  }

  lemma GrownIdentifier(p: string, c: char)
    ensures p != [] ==> (Identifier(p + [c]) <==> Identifier(p) && TypeChar(c, false))
    ensures p == [] ==> (Identifier(p + [c]) <==> TypeChar(c, true))
  {
    var q := p + [c];
    assert q[|p|] == c;
    assert forall i :: 0 <= i < |p| ==> q[i] == p[i];
  }

  lemma SoFarStep(s: string)
    requires s != []
    ensures var n := |s| - 1;
            SafeSoFar(s) <==> SafeSoFar(s[..n]) && CharOk(s, n)
  {
    var n := |s| - 1;
    forall i | 0 <= i < n ensures CharOk(s[..n], i) == CharOk(s, i) {}
  }

  /** A type name is safe exactly if it is identifiers joined by dots. */
  lemma SafeTypeMeans(s: string)
    ensures SafeType(s) <==> forall i :: 0 <= i < |Parts(s)| ==> Identifier(Parts(s)[i])
  {
    SoFar(s);
    assert SafeSoFar(s) && s != [] ==> CharOk(s, 0);
    assert SafeType(s) <==> s != [] && s[|s| - 1] != '.' && SafeSoFar(s) by {
      forall i | 0 <= i < |s| ensures CharOk(s, i) <==>
        if s[i] == '.' then i > 0 && s[i - 1] != '.' else TypeChar(s[i], i == 0 || s[i - 1] == '.') {}
    }
  }

  // ---------------------------------------------------------------- shortcuts and the plan

  /** Giving one key by the shortcut fields is giving it as the only key predicate and the only type. */
  lemma ShortcutWrittenOut(inp: Input)
    ensures var q := inp.query;
            && (q.keys == [] && q.keyColumn.name != "" && inp.keyTypes == [] && inp.keyType != "" ==>
                  Expanded(inp) == Expanded(inp.(keyTypes := [inp.keyType],
                                            query := q.(keys := [KeyPredicate(q.keyColumn, q.keyParam)]))))
            && ((q.keys != [] || q.keyColumn.name == "") && (inp.keyTypes != [] || inp.keyType == "") ==>
                  Expanded(inp) == inp)
            && Expanded(Expanded(inp)) == Expanded(inp)
  {
  }

  /** A column of the plan is the query's, an unqualified one now qualified with the base relation's alias or name. */
  ghost predicate QualifiedAs(r: Relation, c: Column, p: Column) {
    && p.name == c.name && p.alias == c.alias
    && (c.table != "" ==> p.table == c.table)
    && (c.table == "" && r.alias != "" ==> p.table == r.alias)
    && (c.table == "" && r.alias == "" ==> p.table == r.name)
  }

  lemma PlanMeans(inp: Input)
    requires |inp.keyTypes| == |inp.query.keys|
    ensures var q, p := inp.query, PlanOf(inp);
            && p.relation == q.relation && p.join == q.join && p.extra == q.extra
            && |p.on| == |p.requested| == |q.keys| && |p.projection| == |q.projection|
            && (forall k :: 0 <= k < |q.keys| ==> QualifiedAs(q.relation, q.keys[k].column, p.on[k]))
            && (forall k :: 0 <= k < |q.projection| ==> QualifiedAs(q.relation, q.projection[k], p.projection[k]))
    ensures var given, used := inp.limits, PlanOf(inp).limits;
            && used.maxItems == (if given.maxItems > 0 then given.maxItems else 1000)
            && used.maxParameters == (if given.maxParameters > 0 then given.maxParameters else 32000)
            && used.maxPayloadKB == (if given.maxPayloadKB > 0 then given.maxPayloadKB else 4096)
  {
  }

  // ---------------------------------------------------------------- rows

  /** The two values are the same number, neither being NULL. */
  ghost predicate SameNumber(a: SqlValue, b: SqlValue) {
    exists v :: a == Val(v) && b == Val(v)
  }

  /** The tuple has the requested keys, and NULL exactly where a filter asks for it. */
  ghost predicate Wanted(sc: Scope, q: ParsedQuery, params: seq<SqlValue>, t: Tuple) {
    && (forall k :: 0 <= k < |q.keys| ==>
                      && 1 <= q.keys[k].param <= |params|
                      && SameNumber(Cell(sc, t, q.keys[k].column), params[q.keys[k].param - 1]))
    && (forall k :: 0 <= k < |q.extra| ==> (Cell(sc, t, q.extra[k].column) == Null) == !q.extra[k].negated)
  }

  lemma WantedMeans(sc: Scope, q: ParsedQuery, params: seq<SqlValue>, t: Tuple)
    ensures Wanted(sc, q, params, t) <==> KeyMatches(sc, q.keys, params, t) && Passes(sc, q.extra, t)
  {
    hide Cell;
    forall a, b ensures SameNumber(a, b) <==> SqlEq(a, b) {
      assert a.Val? && a == b ==> a == Val(a.v) && b == Val(a.v);
    }
  }

  /** The scalar query keeps exactly the wanted tuples of the join, in order. */
  lemma {:induction false} WhereKeysMeans(sc: Scope, q: ParsedQuery, params: seq<SqlValue>, ts: seq<Tuple>)
    ensures Subseq(WhereKeys(sc, q, params, ts), ts)
    ensures var kept := multiset(WhereKeys(sc, q, params, ts));
            forall t :: kept[t] == if Wanted(sc, q, params, t) then multiset(ts)[t] else 0
  {
    hide Wanted, KeyMatches, Passes;
    if ts != [] {
      var n := |ts| - 1;
      WhereKeysMeans(sc, q, params, ts[..n]);
      WantedMeans(sc, q, params, ts[n]);
      assert ts == ts[..n] + [ts[n]];
      var was := WhereKeys(sc, q, params, ts[..n]);
      SubseqSkip(was, ts[..n], ts[n]);
      SubseqTake(was, ts[..n], ts[n]);
      assert was + [] == was;
    }
  }

  /** A joined row: a row of the partner whose ON columns hold the same number. */
  ghost predicate Paired(sc: Scope, j: Join, t: Tuple) {
    SameNumber(Cell(sc, t, j.left), Cell(sc, t, j.right))
  }

  /** The pairs of one base row with the rows of the partner, whether they satisfy ON or not. */
  function Pairs(base: Option<Row>, rows: seq<Row>): (ts: seq<Tuple>) {
    seq(|rows|, i requires 0 <= i < |rows| => Tuple(base, Some(rows[i])))
  }

  /** The partners of a base row are exactly the paired rows, in order. */
  lemma {:induction false} PartnersMeans(sc: Scope, j: Join, base: Option<Row>, rows: seq<Row>)
    ensures var ts, all := Partners(sc, j, base, rows), Pairs(base, rows);
            && Subseq(ts, all)
            && forall t :: multiset(ts)[t] == if Paired(sc, j, t) then multiset(all)[t] else 0
  {
    if rows != [] {
      var n := |rows| - 1;
      PartnersMeans(sc, j, base, rows[..n]);
      var t := Tuple(base, Some(rows[n]));
      var was, all := Partners(sc, j, base, rows[..n]), Pairs(base, rows);
      assert all == Pairs(base, rows[..n]) + [t];
      EqMeans(Cell(sc, t, j.left), Cell(sc, t, j.right));
      hide Cell, SqlEq, SameNumber;
      SubseqSkip(was, Pairs(base, rows[..n]), t);
      SubseqTake(was, Pairs(base, rows[..n]), t);
      assert was + [] == was;
    }
  }

  lemma EqMeans(a: SqlValue, b: SqlValue)
    ensures SqlEq(a, b) <==> SameNumber(a, b)
  {
    assert a.Val? && a == b ==> a == Val(a.v) && b == Val(a.v);
  }

  /** A base row joins its partners; without any, an outer join keeps it with NULLs and an inner join drops it. */
  lemma JoinOneMeans(db: Database, sc: Scope, join: Option<Join>, base: Option<Row>)
    ensures var ts := JoinOne(db, sc, join, base);
            && (join.None? ==> ts == [Tuple(base, None)])
            && (join.Some? ==>
                  var found := Partners(sc, join.value, base, Rows(db, join.value.relation));
                  && (found != [] ==> ts == found)
                  && (found == [] && join.value.kind == Left ==> ts == [Tuple(base, None)])
                  && (found == [] && join.value.kind == Inner ==> ts == []))
  {
  }
}
