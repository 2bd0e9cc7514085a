/**
 The values that cross the provider boundary: batch items, batch requests and per-item outcomes.
 A request is accepted exactly when it is non-empty, its items are well-formed and its ids are
 pairwise distinct; a response answers a request exactly when its outcomes are well-formed,
 carry pairwise distinct ids, and those ids are the request's ids.
 */
module Wire {
  import opened Seqs

  /** Keys and values are opaque to the runtime; keys are compared by the key strategy only. */
  type Key(!new)
  type Value(!new)

  const MIN_PRIORITY := -1000
  const MAX_PRIORITY := 1000

  datatype BatchItem = BatchItem(id: nat, key: Key, deadline: Option<int>, priority: int, weight: int)

  /** `err` is None for Go's nil error; other errors are numbered. */
  datatype RawOutcome = RawOutcome(id: nat, value: Value, err: Option<int>, found: bool)

  datatype RequestError =
    | NoItems
    | BadItem(index: nat)
    | DuplicateItem(index: nat)

  datatype ResponseError =
    | BadOutcome(index: nat)
    | DuplicateOutcome(index: nat)
    | Unexpected(id: nat)
    | Unanswered(id: nat)

  predicate ItemValid(it: BatchItem) {
    it.id != 0 && it.weight >= 1 && MIN_PRIORITY <= it.priority <= MAX_PRIORITY
  }

  predicate OutcomeValid(o: RawOutcome) {
    o.id != 0 && !(o.err.Some? && o.found)
  }

  function ItemIds(items: seq<BatchItem>): (r: seq<nat>) {
    seq(|items|, i requires 0 <= i < |items| => items[i].id)
  }

  function OutcomeIds(outcomes: seq<RawOutcome>): (r: seq<nat>) {
    seq(|outcomes|, i requires 0 <= i < |outcomes| => outcomes[i].id)
  }

  ghost predicate RequestValid(items: seq<BatchItem>) {
    && items != []
    && (forall i :: 0 <= i < |items| ==> ItemValid(items[i]))
    && Distinct(ItemIds(items))
  }

  ghost predicate ResponseValid(outcomes: seq<RawOutcome>) {
    && (forall i :: 0 <= i < |outcomes| ==> OutcomeValid(outcomes[i]))
    && Distinct(OutcomeIds(outcomes))
  }

  /** The response answers exactly the requested ids, each once. */
  ghost predicate Answers(outcomes: seq<RawOutcome>, ids: seq<nat>) {
    && ResponseValid(outcomes)
    && Elems(OutcomeIds(outcomes)) == Elems(ids)
  }

  /** A valid request told item by item. */
  lemma RequestMeans(items: seq<BatchItem>)
    ensures RequestValid(items) <==>
              && items != []
              && (forall i :: 0 <= i < |items| ==>
                                items[i].id > 0 && items[i].weight > 0 && -1000 <= items[i].priority <= 1000)
              && (forall i, j :: 0 <= i < j < |items| ==> items[i].id != items[j].id)
  {
    assert forall i :: 0 <= i < |items| ==> ItemIds(items)[i] == items[i].id;
  }

  /** A response answers a request if its ids are distinct and requested, and every requested id has an outcome. */
  lemma AnswersMeans(outcomes: seq<RawOutcome>, ids: seq<nat>)
    ensures Answers(outcomes, ids) <==>
              && (forall i :: 0 <= i < |outcomes| ==>
                                outcomes[i].id > 0 && (outcomes[i].err.Some? ==> !outcomes[i].found))
              && (forall i, j :: 0 <= i < j < |outcomes| ==> outcomes[i].id != outcomes[j].id)
              && (forall i :: 0 <= i < |outcomes| ==> outcomes[i].id in ids)
              && (forall id :: id in ids ==> exists i :: 0 <= i < |outcomes| && outcomes[i].id == id)
  {
    var got := OutcomeIds(outcomes);
    assert forall i :: 0 <= i < |outcomes| ==> got[i] == outcomes[i].id && got[i] in got;
    assert forall id :: id in got <==> id in Elems(got);
    assert forall id :: id in ids <==> id in Elems(ids);
    if forall i :: 0 <= i < |outcomes| ==> outcomes[i].id in ids {
      assert Elems(got) <= Elems(ids);
    }
  }

  /** Accepts exactly the valid requests, and names the first offending item otherwise. */
  method NewBatchRequest(items: seq<BatchItem>) returns (err: Option<RequestError>, cp: seq<BatchItem>)
    ensures err.None? <==> RequestValid(items)
    ensures err.None? ==> cp == items
    ensures err == Some(NoItems) <==> items == []
    ensures forall k: nat :: err == Some(BadItem(k)) ==>
                          k < |items| && !ItemValid(items[k]) && Distinct(ItemIds(items[..k]))
    ensures forall k: nat :: err == Some(DuplicateItem(k)) ==>
                          k < |items| && ItemValid(items[k]) && items[k].id in ItemIds(items[..k])
  {
    cp := [];
    if |items| == 0 {
      return Some(NoItems), [];
    }
    var seen: set<nat> := {};
    var i := 0;
    while i < |items|
      invariant 0 <= i <= |items|
      invariant cp == items[..i]
      invariant seen == Elems(ItemIds(items[..i]))
      invariant forall k :: 0 <= k < i ==> ItemValid(items[k])
      invariant Distinct(ItemIds(items[..i]))
    {
      if !ItemValid(items[i]) {
        return Some(BadItem(i)), [];
      }
      assert items[..i + 1] == items[..i] + [items[i]];
      assert ItemIds(items[..i + 1]) == ItemIds(items[..i]) + [items[i].id];
      if items[i].id in seen {
        assert !Distinct(ItemIds(items)) by {
          var j :| 0 <= j < i && ItemIds(items[..i])[j] == items[i].id;
          assert ItemIds(items)[j] == ItemIds(items)[i];
        }
        return Some(DuplicateItem(i)), [];
      }
      seen := seen + {items[i].id};
      cp := cp + [items[i]];
      i := i + 1;
    }
    assert items[..i] == items;
    err := None;
  }

  /** Accepts exactly the well-formed responses with pairwise distinct ids. */
  method Validate(outcomes: seq<RawOutcome>) returns (err: Option<ResponseError>)
    ensures err.None? <==> ResponseValid(outcomes)
    ensures err.Some? ==> err.value.BadOutcome? || err.value.DuplicateOutcome?
    ensures forall k: nat :: err == Some(BadOutcome(k)) ==> k < |outcomes| && !OutcomeValid(outcomes[k])
    ensures forall k: nat :: err == Some(DuplicateOutcome(k)) ==>
                          k < |outcomes| && outcomes[k].id in OutcomeIds(outcomes[..k])
  {
    var seen: set<nat> := {};
    var i := 0;
    while i < |outcomes|
      invariant 0 <= i <= |outcomes|
      invariant seen == Elems(OutcomeIds(outcomes[..i]))
      invariant forall k :: 0 <= k < i ==> OutcomeValid(outcomes[k])
      invariant Distinct(OutcomeIds(outcomes[..i]))
    {
      if !OutcomeValid(outcomes[i]) {
        return Some(BadOutcome(i));
      }
      assert outcomes[..i + 1] == outcomes[..i] + [outcomes[i]];
      assert OutcomeIds(outcomes[..i + 1]) == OutcomeIds(outcomes[..i]) + [outcomes[i].id];
      if outcomes[i].id in seen {
        assert !Distinct(OutcomeIds(outcomes)) by {
          var j :| 0 <= j < i && OutcomeIds(outcomes[..i])[j] == outcomes[i].id;
          assert OutcomeIds(outcomes)[j] == OutcomeIds(outcomes)[i];
        }
        return Some(DuplicateOutcome(i));
      }
      seen := seen + {outcomes[i].id};
      i := i + 1;
    }
    assert outcomes[..i] == outcomes;
    err := None;
  }

  /** Accepts a response exactly when it answers every requested id once and nothing else. */
  method ValidateAgainst(outcomes: seq<RawOutcome>, ids: seq<nat>) returns (err: Option<ResponseError>)
    ensures err.None? <==> Answers(outcomes, ids)
    ensures forall id :: err == Some(Unexpected(id)) ==> id in OutcomeIds(outcomes) && id !in ids
    ensures forall id :: err == Some(Unanswered(id)) ==> id in ids && id !in OutcomeIds(outcomes)
  {
    err := Validate(outcomes);
    if err.Some? {
      return;
    }
    var want: set<nat> := {};
    for i := 0 to |ids|
      invariant want == Elems(ids[..i])
    {
      assert ids[..i + 1] == ids[..i] + [ids[i]];
      want := want + {ids[i]};
    }
    assert ids[..|ids|] == ids;
    var got: set<nat> := {};
    for i := 0 to |outcomes|
      invariant got == Elems(OutcomeIds(outcomes[..i]))
      invariant got <= want
    {
      assert OutcomeIds(outcomes[..i + 1]) == OutcomeIds(outcomes[..i]) + [outcomes[i].id];
      if outcomes[i].id !in want {
        assert OutcomeIds(outcomes)[i] == outcomes[i].id;
        return Some(Unexpected(outcomes[i].id));
      }
      got := got + {outcomes[i].id};
    }
    assert outcomes[..|outcomes|] == outcomes;
    var rest := want;
    while rest != {}
      invariant rest <= want
      invariant want - rest <= got
      decreases rest
    {
      var id :| id in rest;
      if id !in got {
        return Some(Unanswered(id));
      }
      rest := rest - {id};
    }
    err := None;
  }

  /** The outcome recorded for `id` after indexing the response in order, last one winning. */
  function Lookup(outcomes: seq<RawOutcome>, id: nat): (r: Option<RawOutcome>) {
    if outcomes == [] then None
    else if outcomes[|outcomes| - 1].id == id then Some(outcomes[|outcomes| - 1])
    else Lookup(outcomes[..|outcomes| - 1], id)
  }

  /** An accepted response holds exactly one outcome for each requested id, and Lookup finds it. */
  lemma {:induction false} LookupUnique(outcomes: seq<RawOutcome>, k: nat)
    requires Distinct(OutcomeIds(outcomes)) && k < |outcomes|
    ensures Lookup(outcomes, outcomes[k].id) == Some(outcomes[k])
  {
    var n := |outcomes| - 1;
    if k < n {
      assert OutcomeIds(outcomes)[k] != OutcomeIds(outcomes)[n];
      assert forall i :: 0 <= i < n ==> OutcomeIds(outcomes[..n])[i] == OutcomeIds(outcomes)[i];
      LookupUnique(outcomes[..n], k);
    }
  }

  /** A response that answers `ids` has one outcome per id, whatever order the provider chose. */
  lemma AnswersOncePerId(outcomes: seq<RawOutcome>, ids: seq<nat>, id: nat)
    requires Answers(outcomes, ids) && id in ids
    ensures Lookup(outcomes, id).Some? && Lookup(outcomes, id).value in outcomes
    ensures Lookup(outcomes, id).value.id == id && OutcomeValid(Lookup(outcomes, id).value)
    ensures forall o :: o in outcomes && o.id == id ==> Some(o) == Lookup(outcomes, id)
  {
    assert id in Elems(OutcomeIds(outcomes));
    var k :| 0 <= k < |outcomes| && OutcomeIds(outcomes)[k] == id;
    LookupUnique(outcomes, k);
    forall o | o in outcomes && o.id == id ensures Some(o) == Lookup(outcomes, id) {
      var j :| 0 <= j < |outcomes| && outcomes[j] == o;
      LookupUnique(outcomes, j);
    }
  }
}
