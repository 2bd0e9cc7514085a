/**
 The fair scheduler across request classes: reserved shares first, then the weighted-fair pick. The
 weighted-fair discipline is shown to bound every backlogged class's service over whole runs.
 */
module Fairness {
  import opened Seqs
  import opened StringOrder

  datatype Quota = Quota(maxQueued: int, maxPayloadBytes: int)

  datatype Policy = Policy(weight: int, priority: int, reservedShare: real, quota: Quota)

  datatype ClassState = ClassState(policy: Policy, deficit: int, queued: nat, active: nat, served: nat, rejected: nat)

  datatype Sched = Sched(classes: map<string, ClassState>, order: seq<string>)

  datatype Admission = Admitted | MaxQueued | MaxPayload

  const DEFAULT_POLICY := Policy(1, 0, 0.0, Quota(0, 0))

  const LOWEST_PRIORITY := -0x4000_0000

  function Fresh(p: Policy): (c: ClassState) {
    var q := if p.weight <= 0 then p.(weight := 1) else p;
    ClassState(q, q.weight, 0, 0, 0, 0)
  }

  // ---------------------------------------------------------------- operations

  /** The class's state, that of a default class of weight one if it is new. */
  function StateOf(s: Sched, class_: string): (c: ClassState) {
    if class_ in s.classes then s.classes[class_] else Fresh(DEFAULT_POLICY)
  }

  function AdmitVerdict(c: ClassState, payload: int): (a: Admission) {
    if c.policy.quota.maxQueued > 0 && c.queued >= c.policy.quota.maxQueued then MaxQueued
    else if c.policy.quota.maxPayloadBytes > 0 && payload > c.policy.quota.maxPayloadBytes then MaxPayload
    else Admitted
  }

  /** Room for one more request of this size under the class's quotas; a quota of zero or less is none. */
  predicate HasRoom(c: ClassState, payload: int) {
    && (c.policy.quota.maxQueued > 0 ==> c.queued < c.policy.quota.maxQueued)
    && (c.policy.quota.maxPayloadBytes > 0 ==> payload <= c.policy.quota.maxPayloadBytes)
  }

  function AfterAdmit(s: Sched, class_: string, payload: int): (classes: map<string, ClassState>) {
    var c := StateOf(s, class_);
    s.classes[class_ := if AdmitVerdict(c, payload) == Admitted then c.(queued := c.queued + 1)
      else c.(rejected := c.rejected + 1)]
  }

  function AfterServe(s: Sched, class_: string): (classes: map<string, ClassState>) {
    var c := StateOf(s, class_);
    s.classes[class_ := c.(queued := if c.queued > 0 then c.queued - 1 else 0, served := c.served + 1,
      active := c.active + 1, deficit := c.deficit - 1)]
  }

  function AfterComplete(s: Sched, class_: string): (classes: map<string, ClassState>) {
    var c := StateOf(s, class_);
    s.classes[class_ := c.(active := if c.active > 0 then c.active - 1 else 0)]
  }

  ghost predicate Weighted(classes: map<string, ClassState>) {
    forall c :: c in classes ==> classes[c].policy.weight >= 1
  }

  /** The weight-normalised service a class would reach if served next. */
  function Score(c: ClassState): (r: real)
    requires c.policy.weight >= 1
  {
    (c.served + 1) as real / c.policy.weight as real
  }

  /** `b` may be served next: backlogged, of the highest such priority, and least served for its weight there. */
  ghost predicate IsPick(classes: map<string, ClassState>, b: string)
    requires Weighted(classes)
  {
    && b in classes && classes[b].queued > 0
    && forall c :: c in classes && classes[c].queued > 0 ==>
                     || classes[c].policy.priority < classes[b].policy.priority
                     || (classes[c].policy.priority == classes[b].policy.priority
                       && Score(classes[b]) <= Score(classes[c]))
  }

  /** Some backlogged class has a priority the scan can see. */
  predicate Eligible(c: ClassState) {
    c.queued > 0 && c.policy.priority >= LOWEST_PRIORITY
  }

  /** A class with a name that the scan can return: eligible, and no class without a name outranks it. */
  ghost predicate Visible(classes: map<string, ClassState>, c: string) {
    && c != "" && c in classes && Eligible(classes[c])
    && ("" in classes && Eligible(classes[""]) ==> classes[""].policy.priority <= classes[c].policy.priority)
  }

  function SumServed(classes: map<string, ClassState>, keys: seq<string>): (n: nat)
    requires forall c :: c in keys ==> c in classes
  {
    if keys == [] then 0 else SumServed(classes, keys[..|keys| - 1]) + classes[keys[|keys| - 1]].served
  }

  function SumWeight(classes: map<string, ClassState>, keys: seq<string>): (n: int)
    requires forall c :: c in keys ==> c in classes
  {
    if keys == [] then 0 else SumWeight(classes, keys[..|keys| - 1]) + classes[keys[|keys| - 1]].policy.weight
  }

  ghost function TotalServed(classes: map<string, ClassState>): (n: nat) {
    SumServed(classes, SortedKeys(classes.Keys))
  }

  function Shortfall(c: ClassState, total: nat): (r: real) {
    c.policy.reservedShare - if total > 0 then c.served as real / total as real else 0.0
  }

  /** A backlogged class still below its reserved share. */
  predicate Owed(c: ClassState, total: nat) {
    c.queued > 0 && c.policy.reservedShare > 0.0 && Shortfall(c, total) > 0.0
  }

  // ---------------------------------------------------------------- the scheduler

  class FairScheduler {
    var classes: map<string, ClassState>
    var order: seq<string>

    ghost function View(): (s: Sched)
      reads this
    {
      Sched(classes, order)
    }

    /** The order lists the classes by name, and every class has a positive weight. */
    ghost predicate Valid()
      reads this
    {
      Elems(order) == classes.Keys && SortedBy(order, AtMost) && Weighted(classes)
    }

    constructor (policies: seq<(string, Policy)>)
      ensures Valid() && Configured(classes, policies)
    {
      hide Configured;
      var cs: map<string, ClassState>, ord: seq<string> := map[], [];
      ConfiguredNone(policies);
      for i := 0 to |policies|
        invariant Elems(ord) == cs.Keys && Weighted(cs) && Configured(cs, policies[..i])
      {
        ConfiguredMore(cs, policies, i);
        cs := cs[policies[i].0 := Fresh(policies[i].1)];
        assert Elems(ord + [policies[i].0]) == Elems(ord) + {policies[i].0};
        ord := ord + [policies[i].0];
      }
      assert policies[..|policies|] == policies;
      AtMostOrder();
      var sorted := SortBy(ord, AtMost);
      SameMembers(ord, sorted);
      classes, order := cs, sorted;
    }

    /** Creates a default class on first sight. */
    method ClassFor(class_: string)
      requires Valid()
      modifies this
      ensures Valid() && classes == old(classes)[class_ := StateOf(old(View()), class_)]
      ensures class_ in old(classes) ==> order == old(order)
    {
      if class_ !in classes {
        classes := classes[class_ := Fresh(DEFAULT_POLICY)];
        assert Elems(order + [class_]) == Elems(order) + {class_};
        AtMostOrder();
        var sorted := SortBy(order + [class_], AtMost);
        SameMembers(order + [class_], sorted);
        order := sorted;
      }
    }

    method Admit(class_: string, payload: int) returns (a: Admission)
      requires Valid()
      modifies this
      ensures Valid() && a == AdmitVerdict(StateOf(old(View()), class_), payload)
      ensures a == Admitted <==> HasRoom(StateOf(old(View()), class_), payload)
      ensures classes == AfterAdmit(old(View()), class_, payload)
    {
      hide SortedBy, Elems, Weighted;
      ClassFor(class_);
      var c := classes[class_];
      StillWeighted(classes, class_);
      if c.policy.quota.maxQueued > 0 && c.queued >= c.policy.quota.maxQueued {
        classes := classes[class_ := c.(rejected := c.rejected + 1)];
        return MaxQueued;
      }
      if c.policy.quota.maxPayloadBytes > 0 && payload > c.policy.quota.maxPayloadBytes {
        classes := classes[class_ := c.(rejected := c.rejected + 1)];
        return MaxPayload;
      }
      classes := classes[class_ := c.(queued := c.queued + 1)];
      return Admitted;
    }

    method Serve(class_: string)
      requires Valid()
      modifies this
      ensures Valid() && classes == AfterServe(old(View()), class_)
    {
      hide SortedBy, Elems, Weighted;
      ClassFor(class_);
      var c := classes[class_];
      StillWeighted(classes, class_);
      if c.queued > 0 {
        c := c.(queued := c.queued - 1);
      }
      classes := classes[class_ := c.(served := c.served + 1, active := c.active + 1, deficit := c.deficit - 1)];
    }

    method Complete(class_: string)
      requires Valid()
      modifies this
      ensures Valid() && classes == AfterComplete(old(View()), class_)
    {
      hide SortedBy, Elems, Weighted;
      ClassFor(class_);
      var c := classes[class_];
      StillWeighted(classes, class_);
      if c.active > 0 {
        classes := classes[class_ := c.(active := c.active - 1)];
      }
    }

    method CountServed() returns (n: nat)
      ensures n == TotalServed(classes)
    {
      var keys := SortKeys(classes.Keys);
      n := 0;
      for i := 0 to |keys|
        invariant n == SumServed(classes, keys[..i])
      {
        assert keys[..i + 1][..i] == keys[..i];
        n := n + classes[keys[i]].served;
      }
      assert keys[..|keys|] == keys;
    }

    /** The weighted-fair pick; the empty name stands for "none". */
    method WeightedPick() returns (best: string, ok: bool)
      requires Valid()
      ensures ok == (best != "") && best == Picked(classes, order).best
      ensures ok <==> exists c :: Visible(classes, c)
      ensures ok ==> IsPick(classes - {""}, best)
      ensures ok && IsPick(classes, best) <==> exists b :: b != "" && IsPick(classes, b) && Eligible(classes[b])
    {
      best := "";
      var bestScore := 0.0;
      var bestPriority := LOWEST_PRIORITY;
      for i := 0 to |order|
        invariant Acc(best, bestScore, bestPriority) == Picked(classes, order[..i])
      {
        assert order[..i + 1][..i] == order[..i];
        var c := order[i];
        assert c in Elems(order);
        var cs := classes[c];
        if cs.queued > 0 {
          var score := (cs.served + 1) as real / cs.policy.weight as real;
          if cs.policy.priority > bestPriority {
            best, bestScore, bestPriority := c, score, cs.policy.priority;
          } else if cs.policy.priority == bestPriority && (best == "" || score < bestScore) {
            best, bestScore := c, score;
          }
        }
      }
      assert order[..|order|] == order;
      PickExact(classes, order);
      PickVisible(classes, order);
      ok := best != "";
    }

    /** A backlogged class furthest below its reserved share, if any with a name is below it. */
    method ReservedPick() returns (best: string, ok: bool)
      requires Valid()
      ensures ok == (best != "")
      ensures ok <==> exists c :: c != "" && c in classes && Owed(classes[c], TotalServed(classes))
      ensures ok ==> MostOwed(classes, classes.Keys - {""}, TotalServed(classes), best)
    {
      hide Weighted, TotalServed, SortedBy, Shortfall;
      var total := CountServed();
      best := "";
      var bestDeficit := 0.0;
      for i := 0 to |order|
        invariant best == "" ==> forall c :: c in order[..i] && c != "" && c in classes ==> !Owed(classes[c], total)
        invariant best != "" ==> best in order[..i] && MostOwed(classes, Elems(order[..i]) - {""}, total, best)
        invariant best != "" ==> bestDeficit == Shortfall(classes[best], total)
      {
        assert order[..i + 1] == order[..i] + [order[i]];
        assert order[i] in Elems(order);
        if order[i] == "" { UnnamedFirst(order, i); }
        var cs := classes[order[i]];
        OwedMeans(cs, total);
        if cs.queued > 0 && cs.policy.reservedShare > 0.0 {
          var share := if total > 0 then cs.served as real / total as real else 0.0;
          if share < cs.policy.reservedShare {
            var deficit := cs.policy.reservedShare - share;
            if best == "" || deficit > bestDeficit {
              best, bestDeficit := order[i], deficit;
            }
          }
        }
      }
      assert order[..|order|] == order;
      forall c | c in classes ensures c in order { assert c in Elems(order); }
      ok := best != "";
    }

    /** Reserved shares first, then the weighted-fair pick, each among the classes with a name. */
    method Next() returns (best: string, ok: bool)
      requires Valid()
      ensures ok == (best != "")
      ensures (exists c :: c != "" && c in classes && Owed(classes[c], TotalServed(classes))) ==>
                ok && MostOwed(classes, classes.Keys - {""}, TotalServed(classes), best)
      ensures (forall c :: c != "" && c in classes ==> !Owed(classes[c], TotalServed(classes))) ==>
                (ok <==> exists c :: Visible(classes, c)) && (ok ==> IsPick(classes - {""}, best))
      ensures (forall c :: c != "" && c in classes ==> !Owed(classes[c], TotalServed(classes))) ==>
                best == Picked(classes, order).best
    {
      hide Weighted, TotalServed, Owed, MostOwed, Visible, SortedBy, Elems;
      best, ok := ReservedPick();
      if !ok {
        best, ok := WeightedPick();
      }
    }
  }

  /** Each class has the last policy given for its name, with a positive weight, and has not been served. */
  ghost predicate Configured(classes: map<string, ClassState>, policies: seq<(string, Policy)>) {
    && (forall c :: c in classes ==> exists i :: 0 <= i < |policies| && policies[i].0 == c)
    && (forall i :: 0 <= i < |policies| ==> policies[i].0 in classes)
    && (forall i :: 0 <= i < |policies| && (forall j :: i < j < |policies| ==> policies[j].0 != policies[i].0) ==>
                      Unserved(classes[policies[i].0], policies[i].1))
  }

  /** A class with this policy, its weight raised to one if it is not positive, that has seen no request. */
  ghost predicate Unserved(c: ClassState, p: Policy) {
    && c.policy.priority == p.priority && c.policy.reservedShare == p.reservedShare && c.policy.quota == p.quota
    && (if p.weight >= 1 then c.policy.weight == p.weight else c.policy.weight == 1)
    && c.deficit == c.policy.weight && c.queued == c.active == c.served == c.rejected == 0
  }

  lemma ConfiguredNone(policies: seq<(string, Policy)>)
    ensures Configured(map[], policies[..0])
  {
  }

  lemma ConfiguredMore(classes: map<string, ClassState>, policies: seq<(string, Policy)>, n: nat)
    requires n < |policies| && Configured(classes, policies[..n])
    ensures Configured(classes[policies[n].0 := Fresh(policies[n].1)], policies[..n + 1])
  {
    assert Unserved(Fresh(policies[n].1), policies[n].1);
    hide Fresh, Unserved;
    var before, after := policies[..n], policies[..n + 1];
    var cs := classes[policies[n].0 := Fresh(policies[n].1)];
    assert forall i :: 0 <= i < n ==> after[i] == before[i];
    assert after[n] == policies[n];
    forall c | c in cs ensures exists i :: 0 <= i < |after| && after[i].0 == c {
      if c == policies[n].0 {
        assert after[n].0 == c;
      } else {
        var i :| 0 <= i < |before| && before[i].0 == c;
        assert after[i].0 == c;
      }
    }
  }

  /** In the name order, classes without a name come before all others. */
  lemma UnnamedFirst(order: seq<string>, i: nat)
    requires SortedBy(order, AtMost) && i < |order| && order[i] == ""
    ensures forall c :: c in order[..i] ==> c == ""
  {
    forall j | 0 <= j < i ensures order[j] == "" {
      assert AtMost(order[j], order[i]);
      LessTotal(order[j], "");
    }
  }

  lemma OwedMeans(c: ClassState, total: nat)
    ensures var share := if total > 0 then c.served as real / total as real else 0.0;
            && Shortfall(c, total) == c.policy.reservedShare - share
            && (Owed(c, total) <==> c.queued > 0 && c.policy.reservedShare > 0.0 && share < c.policy.reservedShare)
  {
  }

  ghost predicate MostOwed(classes: map<string, ClassState>, among: set<string>, total: nat, b: string) {
    && b in classes && Owed(classes[b], total)
    && forall c :: c in among && c in classes && Owed(classes[c], total) ==>
       Shortfall(classes[c], total) <= Shortfall(classes[b], total)
  }

  // ---------------------------------------------------------------- the weighted-fair pick

  datatype Acc = Acc(best: string, score: real, priority: int)

  /** The scan of the weighted-fair discipline over a list of classes. */
  function Picked(classes: map<string, ClassState>, order: seq<string>): (a: Acc) {
    if order == [] then Acc("", 0.0, LOWEST_PRIORITY)
    else
      PickStep(classes, Picked(classes, order[..|order| - 1]), order[|order| - 1])
  }

  function PickStep(classes: map<string, ClassState>, a: Acc, c: string): (r: Acc) {
    if c !in classes || classes[c].queued == 0 || classes[c].policy.weight < 1 then a
    else if classes[c].policy.priority > a.priority then Acc(c, Score(classes[c]), classes[c].policy.priority)
    else if classes[c].policy.priority == a.priority && (a.best == "" || Score(classes[c]) < a.score) then
      Acc(c, Score(classes[c]), a.priority)
    else a
  }

  /** What the scan knows after part of the list: the best of the named classes, and where the unnamed one stands. */
  ghost predicate ScanOk(classes: map<string, ClassState>, seen: seq<string>, a: Acc)
    requires Weighted(classes)
  {
    if a.best == "" then
      && a.priority == (if "" in seen && "" in classes
        && Eligible(classes[""]) then classes[""].policy.priority else LOWEST_PRIORITY)
      && forall c :: c in seen && c in classes && c != "" && classes[c].queued > 0 ==>
         classes[c].policy.priority < a.priority
    else
      && a.best in seen && a.best in classes && Eligible(classes[a.best])
      && a.priority == classes[a.best].policy.priority && a.score == Score(classes[a.best])
      && ("" in seen && "" in classes && classes[""].queued > 0 ==> classes[""].policy.priority <= a.priority)
      && forall c :: c in seen && c in classes && c != "" && classes[c].queued > 0 ==>
                       || classes[c].policy.priority < a.priority
                       || (classes[c].policy.priority == a.priority && a.score <= Score(classes[c]))
  }

  lemma ScanNamed(classes: map<string, ClassState>, seen: seq<string>, c: string, a: Acc)
    requires Weighted(classes) && c != "" && ScanOk(classes, seen, a)
    ensures ScanOk(classes, seen + [c], PickStep(classes, a, c))
  {
    hide Score;
    assert forall x :: x in seen + [c] <==> x in seen || x == c;
  }

  lemma ScanUnnamed(classes: map<string, ClassState>, seen: seq<string>, a: Acc)
    requires Weighted(classes) && (forall x :: x in seen ==> x == "") && ScanOk(classes, seen, a)
    ensures ScanOk(classes, seen + [""], PickStep(classes, a, ""))
  {
    hide Score;
    assert forall x :: x in seen + [""] ==> x == "";
  }

  lemma {:induction false} ScanIs(classes: map<string, ClassState>, order: seq<string>)
    requires Weighted(classes) && SortedBy(order, AtMost)
    ensures ScanOk(classes, order, Picked(classes, order))
  {
    if order != [] {
      var n := |order| - 1;
      var seen, c := order[..n], order[n];
      ScanIs(classes, seen);
      hide ScanOk, PickStep, Weighted;
      assert order == seen + [c];
      if c == "" {
        forall i | 0 <= i < n ensures seen[i] == "" {
          assert AtMost(order[i], order[n]);
          LessTotal(seen[i], "");
        }
        ScanUnnamed(classes, seen, Picked(classes, seen));
      } else {
        ScanNamed(classes, seen, c, Picked(classes, seen));
      }
    }
  }

  /**
   The pick is the right one exactly when some class with a name is: a class named by the empty
   string is never returned.
   */
  lemma PickExact(classes: map<string, ClassState>, order: seq<string>)
    requires Weighted(classes) && SortedBy(order, AtMost) && Elems(order) == classes.Keys
    ensures var b := Picked(classes, order).best;
            b != "" && IsPick(classes, b) <==> exists c :: c != "" && IsPick(classes, c) && Eligible(classes[c])
  {
    ScanIs(classes, order);
    var a := Picked(classes, order);
    forall c | c in classes ensures c in order { assert c in Elems(order); }
    if c :| c != "" && IsPick(classes, c) && Eligible(classes[c]) {
      assert c in order;
    }
  }

  /** The pick finds a class exactly when one is visible, and then the right one among those with a name. */
  lemma PickVisible(classes: map<string, ClassState>, order: seq<string>)
    requires Weighted(classes) && SortedBy(order, AtMost) && Elems(order) == classes.Keys
    ensures Picked(classes, order).best != "" <==> exists c :: Visible(classes, c)
    ensures Picked(classes, order).best != "" ==> IsPick(classes - {""}, Picked(classes, order).best)
  {
    hide Score;
    ScanIs(classes, order);
    var a := Picked(classes, order);
    forall c | c in classes ensures c in order { assert c in Elems(order); }
    if a.best != "" {
      assert Visible(classes, a.best);
    }
  }

  /** A backlogged class with an empty name and the highest priority hides the whole backlog. */
  lemma EmptyNameHidesBacklog()
    ensures var c := Fresh(Policy(1, 1, 0.0, Quota(0, 0))).(queued := 1); var d := Fresh(DEFAULT_POLICY).(queued := 1);
            Picked(map["" := c, "a" := d], ["", "a"]).best == ""
  {
    var c, d := Fresh(Policy(1, 1, 0.0, Quota(0, 0))).(queued := 1), Fresh(DEFAULT_POLICY).(queued := 1);
    var classes := map["" := c, "a" := d];
    assert "a" != "" && classes[""] == c && classes["a"] == d;
    assert [""][..0] == [];
    assert Picked(classes, [""]) == Acc("", Score(c), 1);
    assert ["", "a"][..1] == [""];
  }

  /** A class whose priority is below -2^30 is not found, even as the only one with a backlog. */
  lemma LowPriorityHidesBacklog()
    ensures var c := Fresh(Policy(1, LOWEST_PRIORITY - 1, 0.0, Quota(0, 0))).(queued := 1);
            Picked(map["a" := c], ["a"]).best == ""
  {
    assert ["a"][..0] == [];
  }

  lemma StillWeighted(classes: map<string, ClassState>, c: string)
    requires Weighted(classes) && c in classes
    ensures forall st: ClassState :: st.policy == classes[c].policy ==>
      Weighted(classes[c := st]) && classes[c := st].Keys == classes.Keys
  {
  }

  lemma SameMembers(a: seq<string>, b: seq<string>)
    requires multiset(a) == multiset(b)
    ensures Elems(a) == Elems(b)
  {
    forall x ensures x in a <==> x in b { assert x in multiset(a) <==> x in multiset(b); }
  }

  // ---------------------------------------------------------------- service over runs

  datatype Event = Round(class_: string) | Arrival(class_: string, payload: int) | Finish(class_: string)

  function Step(classes: map<string, ClassState>, e: Event): (r: map<string, ClassState>) {
    var s := Sched(classes, []);
    match e
    case Round(c) => AfterServe(s, c)
    case Arrival(c, payload) => AfterAdmit(s, c, payload)
    case Finish(c) => AfterComplete(s, c)
  }

  /** The classes that have a name. */
  function Named(classes: map<string, ClassState>): (r: map<string, ClassState>) {
    classes - {""}
  }

  /** All these classes are backlogged, with one priority and no reserved share. */
  ghost predicate Contended(classes: map<string, ClassState>) {
    && (forall c :: c in classes ==> classes[c].queued > 0 && classes[c].policy.reservedShare <= 0.0)
    && (forall c, d :: c in classes && d in classes ==> classes[c].policy.priority == classes[d].policy.priority)
  }

  /**
   A run in which every round serves the class that the weighted-fair scan returns while the named
   classes are contended. Requests arrive and finish between rounds, for the classes already there, so
   the scan order stays as it is.
   */
  ghost predicate IsRun(order: seq<string>, states: seq<map<string, ClassState>>, events: seq<Event>) {
    && |states| == |events| + 1
    && SortedBy(order, AtMost) && Elems(order) == states[0].Keys
    && Weighted(states[0]) && (forall c :: c in states[0] ==> states[0][c].served == 0)
    && forall i :: 0 <= i < |events| ==> IsStep(order, states[i], events[i], states[i + 1])
  }

  ghost predicate IsStep(order: seq<string>, s: map<string, ClassState>, e: Event, s': map<string, ClassState>) {
    && e.class_ in s && s' == Step(s, e)
    && (e.Round? ==> Contended(Named(s)) && e.class_ != "" && e.class_ == Picked(s, order).best)
  }

  function Rounds(events: seq<Event>): (n: nat) {
    if events == [] then 0 else Rounds(events[..|events| - 1]) + if events[|events| - 1].Round? then 1 else 0
  }

  /** No class is ahead of another by more than one weighted turn. */
  ghost predicate Fair(classes: map<string, ClassState>) {
    && Weighted(classes)
    && forall i, j :: i in classes && j in classes ==>
                        classes[i].served * classes[j].policy.weight <=
                        (classes[j].served + 1) * classes[i].policy.weight
  }

  lemma ScoreOrder(a: ClassState, b: ClassState)
    requires a.policy.weight >= 1 && b.policy.weight >= 1
    ensures Score(a) <= Score(b) <==> (a.served + 1) * b.policy.weight <= (b.served + 1) * a.policy.weight
  {
    CrossMultiply((a.served + 1) as real, (b.served + 1) as real, a.policy.weight as real, b.policy.weight as real);
    RealProduct(a.served + 1, b.policy.weight);
    RealProduct(b.served + 1, a.policy.weight);
  }

  lemma RealProduct(m: int, n: int)
    ensures m as real * n as real == (m * n) as real
  {
  }

  lemma CrossMultiply(x: real, y: real, p: real, q: real)
    requires p > 0.0 && q > 0.0
    ensures x / p <= y / q <==> x * q <= y * p
  {
    Undivide(x, p);
    Undivide(y, q);
    Scale(x / p, y / q, p, q);
  }

  lemma Undivide(x: real, p: real)
    requires p > 0.0
    ensures (x / p) * p == x
  {
  }

  lemma Scale(u: real, v: real, p: real, q: real)
    requires p > 0.0 && q > 0.0
    ensures u <= v <==> (u * p) * q <= (v * q) * p
  {
    Regroup(u, p, q);
    Regroup(v, q, p);
    PositiveProduct(p, q);
    Stretch(u, v, p * q);
  }

  lemma Regroup(u: real, p: real, q: real)
    ensures (u * p) * q == u * (p * q) && p * q == q * p
  {
  }

  lemma PositiveProduct(p: real, q: real)
    requires p > 0.0 && q > 0.0
    ensures p * q > 0.0
  {
  }

  lemma Stretch(u: real, v: real, k: real)
    requires k > 0.0
    ensures u <= v <==> u * k <= v * k
  {
    if u < v {
      PositiveProduct(v - u, k);
      assert (v - u) * k == v * k - u * k;
    } else if v < u {
      PositiveProduct(u - v, k);
      assert (u - v) * k == u * k - v * k;
    }
  }

  lemma ServeKeepsFair(classes: map<string, ClassState>, c: string)
    requires Fair(classes) && Contended(classes) && IsPick(classes, c)
    ensures Fair(Step(classes, Round(c)))
  {
    hide Score;
    var after := Step(classes, Round(c));
    forall i, j | i in after && j in after
      ensures after[i].served * after[j].policy.weight <= (after[j].served + 1) * after[i].policy.weight
    {
      if i == c && j != c {
        assert Score(classes[c]) <= Score(classes[j]);
        ScoreOrder(classes[c], classes[j]);
      } else if j == c {
        OneMoreTurn(classes[c].served, classes[i].policy.weight);
      }
    }
  }

  lemma OneMoreTurn(n: int, w: int)
    requires w >= 1
    ensures (n + 1) * w == n * w + w && (n + 2) * w == (n + 1) * w + w
  {
  }

  lemma NamedStep(s: map<string, ClassState>, e: Event)
    requires e.class_ in s
    ensures Step(s, e).Keys == s.Keys
    ensures Named(Step(s, e)) == if e.class_ == "" then Named(s) else Step(Named(s), e)
    ensures forall c :: c in s ==> Step(s, e)[c].policy == s[c].policy
  {
  }

  /** A served round leaves the named classes fair, because the scan is right among them. */
  lemma RoundKeepsFair(order: seq<string>, s: map<string, ClassState>, e: Event)
    requires Weighted(s) && SortedBy(order, AtMost) && Elems(order) == s.Keys && e.Round?
    requires IsStep(order, s, e, Step(s, e)) && Fair(Named(s))
    ensures Fair(Named(Step(s, e)))
  {
    hide Fair, Contended, SortedBy, Elems, Visible, IsPick;
    PickVisible(s, order);
    NamedStep(s, e);
    ServeKeepsFair(Named(s), e.class_);
  }

  lemma {:induction false} RunFair(order: seq<string>, states: seq<map<string, ClassState>>, events: seq<Event>, i: nat)
    requires IsRun(order, states, events) && i < |states|
    ensures Weighted(states[i]) && Fair(Named(states[i])) && states[i].Keys == states[0].Keys
    ensures forall c :: c in states[i] ==> states[i][c].policy == states[0][c].policy
    ensures "" in states[i] ==> states[i][""].served == 0
  {
    hide Fair, IsStep, SortedBy, Elems, Named, Weighted;
    if i == 0 {
      StartFair(states[0]);
    } else {
      RunFair(order, states, events, i - 1);
      assert IsStep(order, states[i - 1], events[i - 1], states[i - 1 + 1]);
      StepFair(order, states[i - 1], events[i - 1], states[i]);
    }
  }

  lemma StartFair(s: map<string, ClassState>)
    requires Weighted(s) && forall c :: c in s ==> s[c].served == 0
    ensures Fair(Named(s))
  {
  }

  lemma StepFair(order: seq<string>, s: map<string, ClassState>, e: Event, s': map<string, ClassState>)
    requires IsStep(order, s, e, s') && SortedBy(order, AtMost) && Elems(order) == s.Keys
    requires Weighted(s) && Fair(Named(s)) && ("" in s ==> s[""].served == 0)
    ensures Weighted(s') && Fair(Named(s')) && s'.Keys == s.Keys && ("" in s' ==> s'[""].served == 0)
    ensures forall c :: c in s' ==> s'[c].policy == s[c].policy
  {
    NamedStep(s, e);
    hide Contended, SortedBy, Elems, Fair, Step, Picked;
    if e.Round? {
      RoundKeepsFair(order, s, e);
    } else if e.class_ != "" {
      OtherKeepsFair(Named(s), e);
    }
    if "" in s {
      UnnamedUnserved(s, e);
    }
  }

  lemma UnnamedUnserved(s: map<string, ClassState>, e: Event)
    requires e.class_ in s && "" in s && s[""].served == 0 && (e.Round? ==> e.class_ != "")
    ensures "" in Step(s, e) && Step(s, e)[""].served == 0
  {
  }

  lemma OtherKeepsFair(classes: map<string, ClassState>, e: Event)
    requires Fair(classes) && !e.Round? && e.class_ in classes
    ensures Fair(Step(classes, e))
  {
    SameFair(classes, Step(classes, e));
  }

  lemma SameFair(a: map<string, ClassState>, b: map<string, ClassState>)
    requires Fair(a) && b.Keys == a.Keys
    requires forall c :: c in b ==> b[c].served == a[c].served && b[c].policy == a[c].policy
    ensures Fair(b)
  {
    forall i, j | i in b && j in b ensures b[i].served * b[j].policy.weight <= (b[j].served + 1) * b[i].policy.weight {
      assert a[i].served * a[j].policy.weight <= (a[j].served + 1) * a[i].policy.weight;
    }
  }

  lemma {:induction false} SumBump(a: map<string, ClassState>, b: map<string, ClassState>, keys: seq<string>,
                                   c: string, by_: nat)
    requires Distinct(keys) && (forall k :: k in keys ==> k in a && k in b)
    requires forall k :: k in keys ==> b[k].served == a[k].served + if k == c then by_ else 0
    ensures SumServed(b, keys) == SumServed(a, keys) + if c in keys then by_ else 0
  {
    if keys != [] {
      var n := |keys| - 1;
      SumBump(a, b, keys[..n], c, by_);
      assert forall k :: k in keys <==> k in keys[..n] || k == keys[n];
      assert keys[n] !in keys[..n];
    }
  }

  /** The named classes' service adds up to the number of rounds. */
  lemma {:induction false} ServedIsRounds(order: seq<string>, states: seq<map<string, ClassState>>, events: seq<Event>,
                                          i: nat)
    requires IsRun(order, states, events) && i < |states|
    ensures TotalServed(Named(states[i])) == Rounds(events[..i])
  {
    hide Fair, Step, SumServed, SortedBy, Elems, IsStep, Weighted;
    RunFair(order, states, events, i);
    if i == 0 {
      assert events[..0] == [];
      NoneServed(Named(states[0]), SortedKeys(Named(states[0]).Keys));
    } else {
      ServedIsRounds(order, states, events, i - 1);
      RunFair(order, states, events, i - 1);
      assert IsStep(order, states[i - 1], events[i - 1], states[i - 1 + 1]);
      hide IsRun;
      assert events[..i][..i - 1] == events[..i - 1];
      StepServed(order, states[i - 1], events[i - 1], states[i]);
    }
  }

  lemma StepServed(order: seq<string>, s: map<string, ClassState>, e: Event, s': map<string, ClassState>)
    requires IsStep(order, s, e, s')
    ensures TotalServed(Named(s')) == TotalServed(Named(s)) + if e.Round? then 1 else 0
  {
    hide SumServed, Contended;
    var keys := SortedKeys(Named(s).Keys);
    NamedStep(s, e);
    assert Named(s').Keys == Named(s).Keys;
    SumBump(Named(s), Named(s'), keys, e.class_, if e.Round? then 1 else 0);
  }

  lemma {:induction false} NoneServed(classes: map<string, ClassState>, keys: seq<string>)
    requires forall c :: c in keys ==> c in classes && classes[c].served == 0
    ensures SumServed(classes, keys) == 0
  {
    if keys != [] {
      NoneServed(classes, keys[..|keys| - 1]);
    }
  }

  lemma {:induction false} SumFair(classes: map<string, ClassState>, keys: seq<string>, j: string)
    requires Fair(classes) && j in classes && forall c :: c in keys ==> c in classes
    ensures SumServed(classes, keys) * classes[j].policy.weight <= (classes[j].served + 1) * SumWeight(classes, keys)
  {
    if keys != [] {
      var n := |keys| - 1;
      SumFair(classes, keys[..n], j);
      var c := classes[keys[n]];
      Distribute(SumServed(classes, keys[..n]), c.served, classes[j].policy.weight, classes[j].served + 1,
        SumWeight(classes, keys[..n]), c.policy.weight);
    }
  }

  lemma Distribute(s: int, t: int, w: int, v: int, x: int, y: int)
    requires s * w <= v * x && t * w <= v * y
    ensures (s + t) * w <= v * (x + y)
  {
    assert (s + t) * w == s * w + t * w && v * (x + y) == v * x + v * y;
  }

  ghost function TotalWeight(classes: map<string, ClassState>): (n: int) {
    SumWeight(classes, SortedKeys(classes.Keys))
  }

  /** Class `j` has its weighted share of `n` rounds, less at most one turn. */
  ghost predicate HasShare(classes: map<string, ClassState>, n: nat, j: string)
    requires j in classes
  {
    n * classes[j].policy.weight <= (classes[j].served + 1) * TotalWeight(classes)
  }

  /** No class is more than one weighted turn ahead of `j`. */
  ghost predicate KeepsUp(classes: map<string, ClassState>, j: string)
    requires j in classes
  {
    forall k :: k in classes ==>
                  classes[k].served * classes[j].policy.weight <= (classes[j].served + 1) * classes[k].policy.weight
  }

  /**
   After any number of rounds every class with a name has its weighted share among those, less at most
   one turn: with N rounds served and total weight W, (served + 1) * W >= N * weight, and no other
   leads it by more. A class without a name is never served.
   */
  lemma ServiceShare(order: seq<string>, states: seq<map<string, ClassState>>, events: seq<Event>, i: nat)
    requires IsRun(order, states, events) && i < |states|
    ensures states[i].Keys == states[0].Keys
    ensures forall j :: j in Named(states[i]) ==>
                          HasShare(Named(states[i]), Rounds(events[..i]), j) && KeepsUp(Named(states[i]), j)
    ensures "" in states[i] ==> states[i][""].served == 0
  {
    assert i <= |events|;
    hide IsRun, Fair, TotalServed, TotalWeight, Rounds, HasShare, KeepsUp, Weighted;
    RunFair(order, states, events, i);
    ServedIsRounds(order, states, events, i);
    FairShares(Named(states[i]), Rounds(events[..i]));
  }

  lemma FairShares(s: map<string, ClassState>, n: nat)
    requires Fair(s) && TotalServed(s) == n
    ensures forall j :: j in s ==> HasShare(s, n, j) && KeepsUp(s, j)
  {
    hide Fair, SumServed, SumWeight, SortedKeys, KeepsUp;
    forall j | j in s ensures HasShare(s, n, j) && KeepsUp(s, j) {
      FairPairs(s, j);
      SumFair(s, SortedKeys(s.Keys), j);
    }
  }

  /**
   Over all classes the bounds hold exactly when there is no class without a name, or it has had so
   few rounds against it that nothing was due to it yet.
   */
  lemma ServiceShareOfAll(order: seq<string>, states: seq<map<string, ClassState>>, events: seq<Event>, i: nat)
    requires IsRun(order, states, events) && i < |states|
    ensures var s, n := states[i], Rounds(events[..i]);
            (forall j :: j in s ==> HasShare(s, n, j)) <==>
            ("" in s ==> n * s[""].policy.weight <= TotalWeight(s))
    ensures var s := states[i];
            (forall j :: j in s ==> KeepsUp(s, j)) <==>
            ("" in s ==> forall k :: k in s ==> s[k].served * s[""].policy.weight <= s[k].policy.weight)
  {
    assert i <= |events|;
    hide IsRun, Rounds, TotalWeight, Fair, HasShare, KeepsUp, Weighted;
    ServiceShare(order, states, events, i);
    RunFair(order, states, events, i);
    SharesDecide(states[i], Rounds(events[..i]));
  }

  lemma SharesDecide(s: map<string, ClassState>, n: nat)
    requires Weighted(s) && ("" in s ==> s[""].served == 0)
    requires forall j :: j in Named(s) ==> HasShare(Named(s), n, j) && KeepsUp(Named(s), j)
    ensures (forall j :: j in s ==> HasShare(s, n, j)) <==> ("" in s ==> n * s[""].policy.weight <= TotalWeight(s))
    ensures (forall j :: j in s ==> KeepsUp(s, j)) <==>
            ("" in s ==> forall k :: k in s ==> s[k].served * s[""].policy.weight <= s[k].policy.weight)
  {
    hide TotalWeight;
    WeightSplits(s);
    forall j | j in s && j != "" ensures HasShare(s, n, j) && KeepsUp(s, j) {
      assert j in Named(s);
      hide HasShare, KeepsUp;
      ShareOfAll(s, n, j);
    }
    if "" in s {
      assert HasShare(s, n, "") <==> n * s[""].policy.weight <= TotalWeight(s);
      UnnamedKeepsUp(s);
    }
    hide HasShare, KeepsUp;
  }

  lemma UnnamedKeepsUp(s: map<string, ClassState>)
    requires "" in s && s[""].served == 0
    ensures KeepsUp(s, "") <==> forall k :: k in s ==> s[k].served * s[""].policy.weight <= s[k].policy.weight
  {
  }

  lemma ShareOfAll(s: map<string, ClassState>, n: nat, j: string)
    requires j in Named(s) && HasShare(Named(s), n, j) && KeepsUp(Named(s), j)
    requires TotalWeight(s) >= TotalWeight(Named(s))
    requires "" in s ==> s[""].served == 0 && s[""].policy.weight >= 1
    ensures HasShare(s, n, j) && KeepsUp(s, j)
  {
    hide TotalWeight;
    MoreWeight(s[j].served + 1, TotalWeight(Named(s)), TotalWeight(s));
    forall k | k in s
      ensures s[k].served * s[j].policy.weight <= (s[j].served + 1) * s[k].policy.weight
    {
      if k == "" {
        MoreWeight(s[j].served + 1, 0, s[k].policy.weight);
      } else {
        assert k in Named(s);
      }
    }
  }

  lemma MoreWeight(v: nat, x: int, y: int)
    requires x <= y
    ensures v * x <= v * y
  {
    assert v * (y - x) >= 0 by { NonNegativeProduct(v, y - x); }
    assert v * (y - x) == v * y - v * x;
  }

  lemma NonNegativeProduct(x: nat, y: nat)
    ensures x * y >= 0
  {
  }

  /** The class without a name is listed first, so its weight comes on top of the others'. */
  lemma WeightSplits(s: map<string, ClassState>)
    requires Weighted(s)
    ensures TotalWeight(s) == TotalWeight(Named(s)) + if "" in s then s[""].policy.weight else 0
    ensures TotalWeight(Named(s)) <= TotalWeight(s)
  {
    hide SumWeight;
    if "" in s {
      EmptyFirst(s.Keys);
      assert Named(s).Keys == s.Keys - {""};
      SumWeightFirst(s, SortedKeys(Named(s).Keys));
    } else {
      assert Named(s) == s;
    }
  }

  lemma {:induction false} SumWeightFirst(s: map<string, ClassState>, keys: seq<string>)
    requires "" in s && forall k :: k in keys ==> k in Named(s)
    ensures forall k :: k in [""] + keys ==> k in s
    ensures SumWeight(s, [""] + keys) == s[""].policy.weight + SumWeight(Named(s), keys)
  {
    if keys == [] {
      assert [""] + keys == [""] && [""][..0] == [];
    } else {
      var n := |keys| - 1;
      SumWeightFirst(s, keys[..n]);
      assert ([""] + keys)[..|keys|] == [""] + keys[..n];
      assert keys[n] in keys;
    }
  }

  lemma EmptyFirst(ks: set<string>)
    requires "" in ks
    ensures SortedKeys(ks) == [""] + SortedKeys(ks - {""})
  {
  }

  /** Two backlogged classes of weight one, one without a name, after `n` rounds. */
  function Starving(n: nat): (r: map<string, ClassState>) {
    var d := Fresh(DEFAULT_POLICY);
    map["" := d.(queued := 1),
      "a" := d.(queued := if n < 3 then 3 - n else 0, served := n, active := n, deficit := 1 - n)]
  }

  lemma StarvingScan(n: nat)
    requires n < 3
    ensures Picked(Starving(n), ["", "a"]).best == "a"
  {
    var s := Starving(n);
    assert "a" != "" && [""][..0] == [] && ["", "a"][..1] == [""];
    assert Picked(s, [""]) == PickStep(s, Acc("", 0.0, LOWEST_PRIORITY), "");
  }

  lemma StarvingRound(n: nat)
    requires n < 3
    ensures IsStep(["", "a"], Starving(n), Round("a"), Starving(n + 1))
  {
    StarvingScan(n);
    assert "a" != "";
    hide Picked;
    assert Step(Starving(n), Round("a")) == Starving(n + 1);
  }

  lemma StarvingWeight()
    ensures TotalWeight(Starving(3)) == 2
  {
    var s := Starving(3);
    assert "a" != "" && s.Keys == {"", "a"} && Named(s).Keys == {"a"};
    WeightSplits(s);
    SortedUnique(["a"], {"a"});
    assert SumWeight(Named(s), []) == 0 && ["a"][..0] == [];
    assert SumWeight(Named(s), ["a"]) == 1;
  }

  lemma StarvingRounds()
    ensures Rounds([Round("a"), Round("a"), Round("a")]) == 3
  {
    var e := Round("a");
    assert [e, e, e][..2] == [e, e] && [e, e][..1] == [e] && [e][..0] == [];
    assert Rounds([e]) == 1 && Rounds([e, e]) == 2;
  }

  lemma StarvingStart()
    ensures SortedBy(["", "a"], AtMost) && Elems(["", "a"]) == Starving(0).Keys && Weighted(Starving(0))
    ensures forall c :: c in Starving(0) ==> Starving(0)[c].served == 0
  {
    assert "a" != "";
  }

  lemma StarvingMisses()
    ensures "" in Starving(3) && !HasShare(Starving(3), 3, "") && !KeepsUp(Starving(3), "")
  {
    StarvingWeight();
    hide TotalWeight;
    assert "a" != "" && "a" in Starving(3) && Starving(3)["a"].served == 3;
  }

  /** The scan serves the other class three times running, and the one without a name misses its share. */
  lemma UnnamedStarves()
    ensures var states := [Starving(0), Starving(1), Starving(2), Starving(3)];
            var events := [Round("a"), Round("a"), Round("a")];
            && IsRun(["", "a"], states, events) && Rounds(events) == 3
            && "" in states[3] && !HasShare(states[3], 3, "") && !KeepsUp(states[3], "")
  {
    hide IsStep, Starving, HasShare, KeepsUp, Rounds, Weighted, SortedBy, Elems;
    StarvingStart();
    StarvingRound(0);
    StarvingRound(1);
    StarvingRound(2);
    StarvingRounds();
    StarvingMisses();
  }

  lemma FairPairs(classes: map<string, ClassState>, j: string)
    requires Fair(classes) && j in classes
    ensures KeepsUp(classes, j)
  {
  }
}
