/**
 The rewriting of an exact-key SELECT into one batch query over an array of keys. Both the parsed
 query and the emitted plan are given a relational meaning (join semantics as in section 7.2.1.1 of
 the PostgreSQL documentation, with SQL's rule that a comparison with NULL is never true), and the
 plan is shown to return, request by request, the rows of the scalar query.
 */
module SqlSynth {
  import opened Seqs

  // ---------------------------------------------------------------- queries and plans

  datatype Column = Column(table: string, name: string, alias: string)

  datatype Relation = Relation(name: string, alias: string)

  /** `param` is the 1-based placeholder compared with the column. */
  datatype KeyPredicate = KeyPredicate(column: Column, param: int)

  datatype JoinKind = Inner | Left

  datatype Join = Join(kind: JoinKind, relation: Relation, left: Column, right: Column)

  /** `column IS NULL`, or `column IS NOT NULL` when negated. */
  datatype NullFilter = NullFilter(column: Column, negated: bool)

  /** `keyColumn` and `keyParam` serve callers that give a single key only. */
  datatype ParsedQuery = ParsedQuery(
    projection: seq<Column>, relation: Relation, join: Option<Join>, keys: seq<KeyPredicate>, keyColumn: Column,
      keyParam: int,
    extra: seq<NullFilter>)

  datatype Limits = Limits(maxItems: int, maxParameters: int, maxPayloadKB: int)

  /** `keyType` is the shortcut for a single key. */
  datatype Input = Input(query: ParsedQuery, keyType: string, keyTypes: seq<string>, atMostOne: bool, limits: Limits)

  /** The input with the single-key shortcuts written out. */
  function Expanded(inp: Input): (r: Input) {
    var q := inp.query;
    inp.(keyTypes := if inp.keyTypes == [] && inp.keyType != "" then [inp.keyType] else inp.keyTypes,
    query := if q.keys == [] && q.keyColumn.name != "" then q.(keys := [KeyPredicate(q.keyColumn, q.keyParam)]) else q)
  }

  /** One array parameter unnested into one column of the requested relation. */
  datatype Requested = Requested(param: int, keyType: string)

  /** The emitted query: the requested keys LEFT JOINed to the base relation, then the optional join and the filters. */
  datatype Plan = Plan(
    requested: seq<Requested>, relation: Relation, on: seq<Column>, join: Option<Join>, extra: seq<NullFilter>,
    projection: seq<Column>, limits: Limits)

  datatype Rejection = TypesMismatch | UnsafeType(index: nat) | CardinalityUndeclared | TooManyParameters

  function Ref(r: Relation): (s: string) {
    if r.alias != "" then r.alias else r.name
  }

  function Qualified(c: Column, ref: string): (r: Column) {
    if c.table == "" then c.(table := ref) else c
  }

  function Normalized(l: Limits): (r: Limits) {
    Limits(if l.maxItems <= 0 then 1000 else l.maxItems,
           if l.maxParameters <= 0 then 32000 else l.maxParameters,
           if l.maxPayloadKB <= 0 then 4096 else l.maxPayloadKB)
  }

  predicate TypeChar(c: char, first: bool) {
    c == '_' || 'a' <= c <= 'z' || 'A' <= c <= 'Z' || (!first && '0' <= c <= '9')
  }

  /** Dot-separated identifiers, none of them empty. */
  predicate SafeType(s: string) {
    && s != [] && s[0] != '.' && s[|s| - 1] != '.'
    && forall i :: 0 <= i < |s| ==>
                     if s[i] == '.' then i > 0 && s[i - 1] != '.' else TypeChar(s[i], i == 0 || s[i - 1] == '.')
  }

  // ---------------------------------------------------------------- synthesis

  function PlanOf(inp: Input): (p: Plan)
    requires |inp.keyTypes| == |inp.query.keys|
  {
    var q := inp.query;
    var ref := Ref(q.relation);
    Plan(seq(|q.keys|, i requires 0 <= i < |q.keys| => Requested(q.keys[i].param, inp.keyTypes[i])),
         q.relation,
         seq(|q.keys|, i requires 0 <= i < |q.keys| => Qualified(q.keys[i].column, ref)),
         q.join, q.extra,
         seq(|q.projection|, i requires 0 <= i < |q.projection| => Qualified(q.projection[i], ref)),
         Normalized(inp.limits))
  }

  ghost predicate Accepts(inp: Input) {
    && |inp.keyTypes| == |inp.query.keys| > 0
    && (forall i :: 0 <= i < |inp.keyTypes| ==> SafeType(inp.keyTypes[i]))
    && (inp.query.join.Some? ==> inp.atMostOne)
    && |inp.query.keys| <= Normalized(inp.limits).maxParameters
  }

  datatype Outcome = Planned(plan: Plan) | Rejected(reason: Rejection)

  /** Qualifies the projection and pairs each key column with its unnested array. */
  method BuildPlan(inp: Input) returns (plan: Plan)
    requires |inp.keyTypes| == |inp.query.keys|
    ensures plan == PlanOf(inp)
  {
    var q := inp.query;
    var ref := if q.relation.alias != "" then q.relation.alias else q.relation.name;
    var projection: seq<Column> := [];
    for i := 0 to |q.projection|
      invariant |projection| == i && forall k :: 0 <= k < i ==> projection[k] == Qualified(q.projection[k], ref)
    {
      var c := q.projection[i];
      if c.table == "" {
        c := c.(table := ref);
      }
      projection := projection + [c];
    }
    var requested: seq<Requested>, on: seq<Column> := [], [];
    for i := 0 to |q.keys|
      invariant |requested| == |on| == i
      invariant forall k :: 0 <= k < i ==> requested[k] == Requested(q.keys[k].param, inp.keyTypes[k])
      invariant forall k :: 0 <= k < i ==> on[k] == Qualified(q.keys[k].column, ref)
    {
      var c := q.keys[i].column;
      if c.table == "" {
        c := c.(table := ref);
      }
      requested := requested + [Requested(q.keys[i].param, inp.keyTypes[i])];
      on := on + [c];
    }
    plan := Plan(requested, q.relation, on, q.join, q.extra, projection, Normalized(inp.limits));
  }

  method SynthesizeExactKey(given: Input) returns (r: Outcome)
    ensures r.Planned? <==> Accepts(Expanded(given))
    ensures r.Planned? ==> r.plan == PlanOf(Expanded(given))
    ensures r == Rejected(TypesMismatch) <==>
              |Expanded(given).keyTypes| != |Expanded(given).query.keys| || |Expanded(given).keyTypes| == 0
    ensures forall i: nat :: r == Rejected(UnsafeType(i)) ==>
      i < |Expanded(given).keyTypes| && !SafeType(Expanded(given).keyTypes[i])
  {
    hide SafeType, PlanOf, Normalized;
    var inp := given;
    if |inp.keyTypes| == 0 && inp.keyType != "" {
      inp := inp.(keyTypes := [inp.keyType]);
    }
    if |inp.query.keys| == 0 && inp.query.keyColumn.name != "" {
      inp := inp.(query := inp.query.(keys := [KeyPredicate(inp.query.keyColumn, inp.query.keyParam)]));
    }
    var q := inp.query;
    if |inp.keyTypes| != |q.keys| || |inp.keyTypes| == 0 {
      return Rejected(TypesMismatch);
    }
    for i := 0 to |inp.keyTypes|
      invariant forall k :: 0 <= k < i ==> SafeType(inp.keyTypes[k])
    {
      if !SafeType(inp.keyTypes[i]) {
        return Rejected(UnsafeType(i));
      }
    }
    if q.join.Some? && !inp.atMostOne {
      return Rejected(CardinalityUndeclared);
    }
    var limits := Normalized(inp.limits);
    if |q.keys| > limits.maxParameters {
      return Rejected(TooManyParameters);
    }
    var plan := BuildPlan(inp);
    r := Planned(plan);
  }

  /** Placeholders are $1 to $n, each once, and key columns belong to the base relation. */
  ghost predicate KeysOk(keys: seq<KeyPredicate>, baseRef: string) {
    && (forall i :: 0 <= i < |keys| ==> 1 <= keys[i].param <= |keys|)
    && (forall i, j :: 0 <= i < j < |keys| ==> keys[i].param != keys[j].param)
    && (forall i :: 0 <= i < |keys| ==> keys[i].column.table == "" || keys[i].column.table == baseRef)
  }

  method ValidateKeyPredicates(keys: seq<KeyPredicate>, baseRef: string) returns (ok: bool)
    ensures ok <==> KeysOk(keys, baseRef)
  {
    var seen: set<int> := {};
    for i := 0 to |keys|
      invariant KeysBefore(keys, i, baseRef) && seen == set k | 0 <= k < i :: keys[k].param
    {
      if keys[i].param < 1 || keys[i].param > |keys| || keys[i].param in seen {
        return false;
      }
      seen := seen + {keys[i].param};
      if keys[i].column.table != "" && keys[i].column.table != baseRef {
        return false;
      }
    }
    ok := true;
  }

  ghost predicate KeysBefore(keys: seq<KeyPredicate>, n: nat, baseRef: string)
    requires n <= |keys|
  {
    && (forall i :: 0 <= i < n ==> 1 <= keys[i].param <= |keys|)
    && (forall i, j :: 0 <= i < j < n ==> keys[i].param != keys[j].param)
    && (forall i :: 0 <= i < n ==> keys[i].column.table == "" || keys[i].column.table == baseRef)
  }

  /** What the parser guarantees of a query it accepts; PostgreSQL has no empty relation names. */
  ghost predicate Parsed(q: ParsedQuery) {
    && KeysOk(q.keys, Ref(q.relation)) && q.keys != []
    && (q.join.Some? ==> Ref(q.join.value.relation) != Ref(q.relation) && Ref(q.join.value.relation) != "")
  }

  // ---------------------------------------------------------------- relational meaning

  datatype SqlValue = Null | Val(v: int)

  type Row = map<string, SqlValue>

  type Database = map<string, seq<Row>>

  function Rows(db: Database, r: Relation): (rows: seq<Row>) {
    if r.name in db then db[r.name] else []
  }

  /** A comparison is true only of two equal non-null values. */
  predicate SqlEq(a: SqlValue, b: SqlValue) {
    a.Val? && b.Val? && a == b
  }

  /** One row of the FROM clause; None is a row of NULLs supplied by an outer join. */
  datatype Tuple = Tuple(base: Option<Row>, joined: Option<Row>)

  /** How column references resolve: to the joined relation by its name, otherwise to the base relation. */
  datatype Scope = Scope(baseRef: string, joinRef: Option<string>)

  function ScopeOf(relation: Relation, join: Option<Join>): (s: Scope) {
    Scope(Ref(relation), if join.Some? then Some(Ref(join.value.relation)) else None)
  }

  function Cell(sc: Scope, t: Tuple, c: Column): (v: SqlValue) {
    var row := if sc.joinRef == Some(c.table) && c.table != sc.baseRef then t.joined else t.base;
    if row.Some? && c.name in row.value then row.value[c.name] else Null
  }

  /** The rows of a join partner that satisfy the ON equality. */
  function Partners(sc: Scope, j: Join, base: Option<Row>, rows: seq<Row>): (ts: seq<Tuple>) {
    if rows == [] then []
    else
      var t := Tuple(base, Some(rows[|rows| - 1]));
      Partners(sc, j, base, rows[..|rows| - 1]) + if SqlEq(Cell(sc, t, j.left), Cell(sc, t, j.right)) then [t] else []
  }

  function JoinOne(db: Database, sc: Scope, join: Option<Join>, base: Option<Row>): (ts: seq<Tuple>) {
    if join.None? then [Tuple(base, None)]
    else
      var ts := Partners(sc, join.value, base, Rows(db, join.value.relation));
      if ts == [] && join.value.kind == Left then [Tuple(base, None)] else ts
  }

  function JoinAll(db: Database, sc: Scope, join: Option<Join>, bases: seq<Row>): (ts: seq<Tuple>) {
    if bases == [] then []
    else JoinAll(db, sc, join, bases[..|bases| - 1]) + JoinOne(db, sc, join, Some(bases[|bases| - 1]))
  }

  predicate Passes(sc: Scope, extra: seq<NullFilter>, t: Tuple) {
    forall i :: 0 <= i < |extra| ==> (Cell(sc, t, extra[i].column) == Null) == !extra[i].negated
  }

  /** The key equalities of the scalar query with its parameters bound. */
  predicate KeyMatches(sc: Scope, keys: seq<KeyPredicate>, params: seq<SqlValue>, t: Tuple) {
    forall i :: 0 <= i < |keys| ==>
                  1 <= keys[i].param <= |params| && SqlEq(Cell(sc, t, keys[i].column), params[keys[i].param - 1])
  }

  function Where(sc: Scope, extra: seq<NullFilter>, ts: seq<Tuple>): (r: seq<Tuple>) {
    if ts == [] then []
    else
      var t := ts[|ts| - 1];
      Where(sc, extra, ts[..|ts| - 1]) + if Passes(sc, extra, t) then [t] else []
  }

  function WhereKeys(sc: Scope, q: ParsedQuery, params: seq<SqlValue>, ts: seq<Tuple>): (r: seq<Tuple>) {
    if ts == [] then []
    else
      var t := ts[|ts| - 1];
      WhereKeys(sc, q, params, ts[..|ts| - 1]) + if KeyMatches(sc, q.keys, params, t) && Passes(sc, q.extra, t) then [t]
        else []
  }

  function Project(sc: Scope, projection: seq<Column>, t: Tuple): (r: seq<SqlValue>) {
    seq(|projection|, i requires 0 <= i < |projection| => Cell(sc, t, projection[i]))
  }

  function ProjectAll(sc: Scope, projection: seq<Column>, ts: seq<Tuple>): (r: seq<seq<SqlValue>>) {
    seq(|ts|, i requires 0 <= i < |ts| => Project(sc, projection, ts[i]))
  }

  /** The scalar query: join, then filter by key and by null tests, then project. */
  function Scalar(db: Database, q: ParsedQuery, params: seq<SqlValue>): (r: seq<seq<SqlValue>>) {
    var sc := ScopeOf(q.relation, q.join);
    ProjectAll(sc, q.projection, WhereKeys(sc, q, params, JoinAll(db, sc, q.join, Rows(db, q.relation))))
  }

  /** The requested relation: request `i` holds the i-th element of every array, NULL past an array's end. */
  function RequestRow(p: Plan, arrays: seq<seq<SqlValue>>, i: nat): (r: seq<SqlValue>) {
    seq(|p.requested|, k requires 0 <= k < |p.requested| =>
      var n := p.requested[k].param;
      if 1 <= n <= |arrays| && i < |arrays[n - 1]| then arrays[n - 1][i] else Null)
  }

  predicate OnMatches(sc: Scope, p: Plan, req: seq<SqlValue>, base: Row) {
    |p.on| == |req| && forall k :: 0 <= k < |req| ==> SqlEq(Cell(sc, Tuple(Some(base), None), p.on[k]), req[k])
  }

  function BaseMatches(sc: Scope, p: Plan, req: seq<SqlValue>, rows: seq<Row>): (r: seq<Row>) {
    if rows == [] then []
    else
      var b := rows[|rows| - 1];
      BaseMatches(sc, p, req, rows[..|rows| - 1]) + if OnMatches(sc, p, req, b) then [b] else []
  }

  /** The FROM and WHERE clauses of the batch query for one request. */
  function RequestTuples(db: Database, p: Plan, arrays: seq<seq<SqlValue>>, i: nat): (ts: seq<Tuple>) {
    var sc := ScopeOf(p.relation, p.join);
    var bases := BaseMatches(sc, p, RequestRow(p, arrays, i), Rows(db, p.relation));
    Where(sc, p.extra, if bases == [] then JoinOne(db, sc, p.join, None) else JoinAll(db, sc, p.join, bases))
  }

  datatype OutRow = OutRow(ordinal: nat, values: seq<SqlValue>)

  function Tagged(ordinal: nat, rows: seq<seq<SqlValue>>): (r: seq<OutRow>) {
    seq(|rows|, i requires 0 <= i < |rows| => OutRow(ordinal, rows[i]))
  }

  /** The batch query over `n` requests, ordered by ordinal. */
  function Batch(db: Database, p: Plan, arrays: seq<seq<SqlValue>>, n: nat): (r: seq<OutRow>) {
    if n == 0 then []
    else
      Batch(db, p, arrays, n - 1)
      + Tagged(n, ProjectAll(ScopeOf(p.relation, p.join), p.projection, RequestTuples(db, p, arrays, n - 1)))
  }

  // ---------------------------------------------------------------- the rewriting keeps the meaning

  /** The array bound to a placeholder holds that component of every request. */
  function Arrays(keys: seq<seq<SqlValue>>, width: nat): (r: seq<seq<SqlValue>>)
    requires forall i :: 0 <= i < |keys| ==> |keys[i]| == width
  {
    seq(width, c requires 0 <= c < width => seq(|keys|, i requires 0 <= i < |keys| => keys[i][c]))
  }

  lemma {:induction false} PartnersBase(sc: Scope, j: Join, base: Option<Row>, rows: seq<Row>)
    ensures forall k :: 0 <= k < |Partners(sc, j, base, rows)| ==> Partners(sc, j, base, rows)[k].base == base
  {
    if rows != [] {
      PartnersBase(sc, j, base, rows[..|rows| - 1]);
    }
  }

  lemma JoinOneBase(db: Database, sc: Scope, join: Option<Join>, base: Option<Row>)
    ensures forall k :: 0 <= k < |JoinOne(db, sc, join, base)| ==> JoinOne(db, sc, join, base)[k].base == base
  {
    if join.Some? {
      PartnersBase(sc, join.value, base, Rows(db, join.value.relation));
    }
  }

  lemma {:induction false} WhereConcat(sc: Scope, extra: seq<NullFilter>, a: seq<Tuple>, b: seq<Tuple>)
    ensures Where(sc, extra, a + b) == Where(sc, extra, a) + Where(sc, extra, b)
  {
    hide Passes;
    if b == [] {
      assert a + b == a;
    } else {
      var n := |b| - 1;
      WhereConcat(sc, extra, a, b[..n]);
      assert (a + b)[..|a| + n] == a + b[..n];
    }
  }

  lemma {:induction false} WhereKeysConcat(sc: Scope, q: ParsedQuery, params: seq<SqlValue>, a: seq<Tuple>,
                                           b: seq<Tuple>)
    ensures WhereKeys(sc, q, params, a + b) == WhereKeys(sc, q, params, a) + WhereKeys(sc, q, params, b)
  {
    hide Passes, KeyMatches;
    if b == [] {
      assert a + b == a;
    } else {
      var n := |b| - 1;
      WhereKeysConcat(sc, q, params, a, b[..n]);
      assert (a + b)[..|a| + n] == a + b[..n];
    }
  }

  /** On tuples that agree on the key test, filtering by key is all or nothing. */
  lemma {:induction false} WhereKeysUniform(sc: Scope, q: ParsedQuery, params: seq<SqlValue>, ts: seq<Tuple>, m: bool)
    requires forall k :: 0 <= k < |ts| ==> KeyMatches(sc, q.keys, params, ts[k]) == m
    ensures WhereKeys(sc, q, params, ts) == if m then Where(sc, q.extra, ts) else []
  {
    hide Passes, KeyMatches;
    if ts != [] {
      WhereKeysUniform(sc, q, params, ts[..|ts| - 1], m);
    }
  }

  /** Key columns belong to the base relation, so the key test depends on the base row alone. */
  lemma KeyTest(q: ParsedQuery, params: seq<SqlValue>, t: Tuple, b: Row)
    requires Parsed(q) && t.base == Some(b)
    ensures var sc := ScopeOf(q.relation, q.join);
            KeyMatches(sc, q.keys, params, t) == KeyMatches(sc, q.keys, params, Tuple(Some(b), None))
  {
    var sc := ScopeOf(q.relation, q.join);
    forall i | 0 <= i < |q.keys| ensures Cell(sc, t, q.keys[i].column) ==
      Cell(sc, Tuple(Some(b), None), q.keys[i].column) {
      KeyCell(q, t, b, i);
    }
  }

  lemma KeyCell(q: ParsedQuery, t: Tuple, b: Row, i: nat)
    requires Parsed(q) && t.base == Some(b) && i < |q.keys|
    ensures var sc := ScopeOf(q.relation, q.join); var c := q.keys[i].column;
            Cell(sc, t, c) == Cell(sc, Tuple(Some(b), None), c)
            && Cell(sc, Tuple(Some(b), None), Qualified(c, Ref(q.relation))) == Cell(sc, Tuple(Some(b), None), c)
  {
  }

  ghost predicate Keyed(keys: seq<seq<SqlValue>>, width: nat) {
    forall i :: 0 <= i < |keys| ==> |keys[i]| == width
  }

  /** The plan's ON condition for a request is the scalar query's key test with that request's parameters. */
  lemma OnIsKeyTest(inp: Input, keys: seq<seq<SqlValue>>, i: nat, b: Row)
    requires Parsed(inp.query) && |inp.keyTypes| == |inp.query.keys| && Keyed(keys, |inp.query.keys|) && i < |keys|
    ensures var q, p := inp.query, PlanOf(inp); var sc := ScopeOf(q.relation, q.join);
            OnMatches(sc, p, RequestRow(p, Arrays(keys, |q.keys|), i), b) ==
              KeyMatches(sc, q.keys, keys[i], Tuple(Some(b), None))
  {
    var q, p := inp.query, PlanOf(inp);
    var sc, t := ScopeOf(q.relation, q.join), Tuple(Some(b), None);
    var req := RequestRow(p, Arrays(keys, |q.keys|), i);
    forall k | 0 <= k < |q.keys|
      ensures SqlEq(Cell(sc, t, p.on[k]), req[k]) == SqlEq(Cell(sc, t, q.keys[k].column), keys[i][q.keys[k].param - 1])
    {
      RequestCell(inp, keys, i, k);
      KeyCell(q, t, b, k);
    }
    hide Parsed, Cell, RequestRow;
    assert |req| == |p.on| == |q.keys|;
  }

  /** Request `i` carries its own k-th component, whatever order the placeholders were written in. */
  lemma RequestCell(inp: Input, keys: seq<seq<SqlValue>>, i: nat, k: nat)
    requires Parsed(inp.query) && |inp.keyTypes| == |inp.query.keys| && Keyed(keys, |inp.query.keys|) && i < |keys|
    requires k < |inp.query.keys|
    ensures var q, p := inp.query, PlanOf(inp);
            var req := RequestRow(p, Arrays(keys, |q.keys|), i);
            |req| == |q.keys| && 1 <= q.keys[k].param <= |keys[i]| && req[k] == keys[i][q.keys[k].param - 1]
  {
    assert 1 <= inp.query.keys[k].param <= |inp.query.keys|;
  }

  /** Filtering the joined rows by key is joining the rows filtered by key. */
  lemma {:induction false} FilterFirst(db: Database, inp: Input, keys: seq<seq<SqlValue>>, i: nat, rows: seq<Row>)
    requires Parsed(inp.query) && |inp.keyTypes| == |inp.query.keys| && Keyed(keys, |inp.query.keys|) && i < |keys|
    ensures var q, p := inp.query, PlanOf(inp); var sc := ScopeOf(q.relation, q.join);
            WhereKeys(sc, q, keys[i], JoinAll(db, sc, q.join, rows)) ==
            Where(sc, q.extra, JoinAll(db, sc, q.join,
              BaseMatches(sc, p, RequestRow(p, Arrays(keys, |q.keys|), i), rows)))
  {
    var q, p := inp.query, PlanOf(inp);
    var sc := ScopeOf(q.relation, q.join);
    var req := RequestRow(p, Arrays(keys, |q.keys|), i);
    if rows != [] {
      var n := |rows| - 1;
      var b := rows[n];
      FilterFirst(db, inp, keys, i, rows[..n]);
      OnIsKeyTest(inp, keys, i, b);
      hide PlanOf, RequestRow, Arrays, Keyed, OnMatches, KeyMatches, JoinOne, Parsed, Passes;
      var one := JoinOne(db, sc, q.join, Some(b));
      JoinOneBase(db, sc, q.join, Some(b));
      var m := OnMatches(sc, p, req, b);
      forall k | 0 <= k < |one| ensures KeyMatches(sc, q.keys, keys[i], one[k]) == m {
        KeyTest(q, keys[i], one[k], b);
      }
      WhereKeysUniform(sc, q, keys[i], one, m);
      WhereKeysConcat(sc, q, keys[i], JoinAll(db, sc, q.join, rows[..n]), one);
      var was := BaseMatches(sc, p, req, rows[..n]);
      if m {
        WhereConcat(sc, q.extra, JoinAll(db, sc, q.join, was), one);
        assert (was + [b])[..|was|] == was;
      } else {
        assert was + [] == was;
      }
    }
  }

  /** No base row matches request `i`. */
  ghost predicate Unmatched(db: Database, q: ParsedQuery, params: seq<SqlValue>) {
    NoneMatch(ScopeOf(q.relation, q.join), q.keys, params, Rows(db, q.relation))
  }

  ghost predicate NoneMatch(sc: Scope, keys: seq<KeyPredicate>, params: seq<SqlValue>, rows: seq<Row>) {
    forall k :: 0 <= k < |rows| ==> !RowMatches(sc, keys, params, rows[k])
  }

  predicate RowMatches(sc: Scope, keys: seq<KeyPredicate>, params: seq<SqlValue>, b: Row) {
    KeyMatches(sc, keys, params, Tuple(Some(b), None))
  }

  lemma NoneMatchMore(sc: Scope, keys: seq<KeyPredicate>, params: seq<SqlValue>, rows: seq<Row>)
    requires rows != []
    ensures NoneMatch(sc, keys, params, rows) <==>
            NoneMatch(sc, keys, params, rows[..|rows| - 1]) && !RowMatches(sc, keys, params, rows[|rows| - 1])
  {
    hide RowMatches;
    assert forall k :: 0 <= k < |rows| - 1 ==> rows[..|rows| - 1][k] == rows[k];
  }

  /** An unmatched request yields a row of NULLs unless an inner join or an IS NOT NULL test removes it. */
  predicate Pads(q: ParsedQuery) {
    (q.join.None? || q.join.value.kind == Left) && forall k :: 0 <= k < |q.extra| ==> !q.extra[k].negated
  }

  lemma {:induction false} NoBases(inp: Input, keys: seq<seq<SqlValue>>, i: nat, rows: seq<Row>)
    requires Parsed(inp.query) && |inp.keyTypes| == |inp.query.keys| && Keyed(keys, |inp.query.keys|) && i < |keys|
    ensures var q, p := inp.query, PlanOf(inp); var sc := ScopeOf(q.relation, q.join);
            BaseMatches(sc, p, RequestRow(p, Arrays(keys, |q.keys|), i), rows) == [] <==>
              NoneMatch(sc, q.keys, keys[i], rows)
  {
    if rows != [] {
      var n := |rows| - 1;
      NoBases(inp, keys, i, rows[..n]);
      OnIsKeyTest(inp, keys, i, rows[n]);
      NoneMatchMore(ScopeOf(inp.query.relation, inp.query.join), inp.query.keys, keys[i], rows);
      hide PlanOf, RequestRow, Arrays, Keyed, OnMatches, KeyMatches, Parsed, NoneMatch;
    }
  }

  /** A padded base row joins nothing, since its columns are NULL. */
  lemma {:induction false} NoPartners(q: ParsedQuery, rows: seq<Row>)
    requires Parsed(q) && q.join.Some? && JoinsBase(q)
    ensures Partners(ScopeOf(q.relation, q.join), q.join.value, None, rows) == []
  {
    if rows != [] {
      NoPartners(q, rows[..|rows| - 1]);
    }
  }

  /** The ON equality has one column of the base relation. */
  ghost predicate JoinsBase(q: ParsedQuery) {
    q.join.Some? ==> q.join.value.left.table == Ref(q.relation) || q.join.value.right.table == Ref(q.relation)
  }

  lemma PadRow(db: Database, q: ParsedQuery)
    requires Parsed(q) && JoinsBase(q)
    ensures var sc := ScopeOf(q.relation, q.join);
            Where(sc, q.extra, JoinOne(db, sc, q.join, None)) == if Pads(q) then [Tuple(None, None)] else []
  {
    var sc := ScopeOf(q.relation, q.join);
    if q.join.Some? {
      NoPartners(q, Rows(db, q.join.value.relation));
    }
    var t := Tuple(None, None);
    assert forall c :: Cell(sc, t, c) == Null;
    assert Where(sc, q.extra, [t]) == if Passes(sc, q.extra, t) then [t] else [] by {
      assert [t][..0] == [];
    }
  }

  lemma ProjectSame(inp: Input, ts: seq<Tuple>)
    requires Parsed(inp.query) && |inp.keyTypes| == |inp.query.keys|
    ensures var q, p := inp.query, PlanOf(inp); var sc := ScopeOf(q.relation, q.join);
            ProjectAll(sc, p.projection, ts) == ProjectAll(sc, q.projection, ts)
  {
    var q, p := inp.query, PlanOf(inp);
    var sc := ScopeOf(q.relation, q.join);
    forall k | 0 <= k < |ts| ensures Project(sc, p.projection, ts[k]) == Project(sc, q.projection, ts[k]) {
      forall c | 0 <= c < |q.projection| ensures Cell(sc, ts[k], p.projection[c]) == Cell(sc, ts[k], q.projection[c]) {}
    }
  }

  function Nulls(n: nat): (r: seq<SqlValue>) {
    seq(n, _ => Null)
  }

  /**
   The batch query's rows for one request: exactly the scalar query's rows for its key when a base row
   matches; otherwise none, or one row of NULLs from the outer join.
   */
  lemma RequestIsScalar(db: Database, inp: Input, keys: seq<seq<SqlValue>>, i: nat)
    requires Parsed(inp.query) && JoinsBase(inp.query) && |inp.keyTypes| == |inp.query.keys|
    requires Keyed(keys, |inp.query.keys|) && i < |keys|
    ensures var q, p := inp.query, PlanOf(inp); var sc := ScopeOf(q.relation, q.join);
            var rows := ProjectAll(sc, p.projection, RequestTuples(db, p, Arrays(keys, |q.keys|), i));
            && (!Unmatched(db, q, keys[i]) ==> rows == Scalar(db, q, keys[i]))
            && (Unmatched(db, q, keys[i]) ==>
              Scalar(db, q, keys[i]) == [] && rows == if Pads(q) then [Nulls(|q.projection|)] else [])
  {
    var q, p := inp.query, PlanOf(inp);
    var sc := ScopeOf(q.relation, q.join);
    var base := Rows(db, q.relation);
    FilterFirst(db, inp, keys, i, base);
    NoBases(inp, keys, i, base);
    PadRow(db, q);
    ProjectSame(inp, RequestTuples(db, p, Arrays(keys, |q.keys|), i));
    PadProjection(sc, q.projection);
    hide RequestRow, Arrays, Keyed, OnMatches, KeyMatches, JoinOne, Parsed, Passes, Cell, JoinsBase, Pads;
  }

  lemma PadProjection(sc: Scope, projection: seq<Column>)
    ensures ProjectAll(sc, projection, [Tuple(None, None)]) == [Nulls(|projection|)]
  {
    assert Project(sc, projection, Tuple(None, None)) == Nulls(|projection|);
  }

  /** What the caller should see for one request. */
  ghost function Expected(db: Database, q: ParsedQuery, params: seq<SqlValue>): (rows: seq<seq<SqlValue>>) {
    if !Unmatched(db, q, params) then Scalar(db, q, params)
    else if Pads(q) then [Nulls(|q.projection|)] else []
  }

  ghost function ExpectedAll(db: Database, q: ParsedQuery, keys: seq<seq<SqlValue>>): (r: seq<OutRow>) {
    if keys == [] then []
    else ExpectedAll(db, q, keys[..|keys| - 1]) + Tagged(|keys|, Expected(db, q, keys[|keys| - 1]))
  }

  /** For every database and key list the batch query returns the scalar results, request by request, in order. */
  lemma {:induction false} BatchIsScalars(db: Database, inp: Input, keys: seq<seq<SqlValue>>, n: nat)
    requires Parsed(inp.query) && JoinsBase(inp.query) && |inp.keyTypes| == |inp.query.keys|
    requires Keyed(keys, |inp.query.keys|) && n <= |keys|
    ensures Batch(db, PlanOf(inp), Arrays(keys, |inp.query.keys|), n) == ExpectedAll(db, inp.query, keys[..n])
  {
    hide RequestTuples, Arrays, Parsed, JoinsBase, Scalar, Unmatched, ProjectAll;
    if n > 0 {
      BatchIsScalars(db, inp, keys, n - 1);
      RequestIsScalar(db, inp, keys, n - 1);
      assert keys[..n][..n - 1] == keys[..n - 1];
    }
  }
}
