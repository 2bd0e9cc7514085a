/**
 The books of the fair scheduler over whole runs: what is queued is what was admitted and not yet
 served, quotas are never exceeded, and every counter of a class counts the calls made for it.
 */
module FairLedger {
  import opened Fairness

  datatype Op = Admit(class_: string, payload: int) | Serve(class_: string) | Complete(class_: string)

  function Apply(s: Sched, op: Op): (classes: map<string, ClassState>) {
    match op
    case Admit(c, payload) => AfterAdmit(s, c, payload)
    case Serve(c) => AfterServe(s, c)
    case Complete(c) => AfterComplete(s, c)
  }

  ghost predicate IsRun(states: seq<Sched>, ops: seq<Op>) {
    |states| == |ops| + 1 && forall i :: 0 <= i < |ops| ==> states[i + 1].classes == Apply(states[i], ops[i])
  }

  /** A class not seen before has weight one, the lowest claims and no quotas. */
  lemma StateMeans(s: Sched, c: string)
    ensures c in s.classes ==> StateOf(s, c) == s.classes[c]
    ensures c !in s.classes ==> Unserved(StateOf(s, c), Policy(1, 0, 0.0, Quota(0, 0)))
  {
  }

  // ---------------------------------------------------------------- admission

  /** A request is admitted exactly if there is room for it, and a refusal names the quota that refused. */
  lemma AdmitMeans(c: ClassState, payload: int)
    ensures AdmitVerdict(c, payload) == Admitted <==> HasRoom(c, payload)
    ensures AdmitVerdict(c, payload) == MaxQueued <==> 0 < c.policy.quota.maxQueued <= c.queued
    ensures AdmitVerdict(c, payload) == MaxPayload <==>
            !(0 < c.policy.quota.maxQueued <= c.queued) && 0 < c.policy.quota.maxPayloadBytes < payload
  {
  }

  predicate WithinQuota(c: ClassState) {
    c.policy.quota.maxQueued > 0 ==> c.queued <= c.policy.quota.maxQueued
  }

  // ---------------------------------------------------------------- the ledger

  datatype Kind = Taken | Refused | Drained | Started | Finished

  /** Whether a call, made in a given state, is of a kind for class `c`. */
  predicate OfKind(kind: Kind, c: string, s: Sched, op: Op) {
    && op.class_ == c && var was := StateOf(s, c);
    match kind
    case Taken => op.Admit? && HasRoom(was, op.payload)
    case Refused => op.Admit? && !HasRoom(was, op.payload)
    case Drained => op.Serve? && was.queued > 0
    case Started => op.Serve?
    case Finished => op.Complete? && was.active > 0
  }

  function One(b: bool): (n: nat) {
    if b then 1 else 0
  }

  /** How many of the first `n` calls are of a kind for class `c`. */
  function Times(states: seq<Sched>, ops: seq<Op>, n: nat, kind: Kind, c: string): (t: nat)
    requires n <= |ops| < |states|
  {
    if n == 0 then 0 else Times(states, ops, n - 1, kind, c) + One(OfKind(kind, c, states[n - 1], ops[n - 1]))
  }

  ghost predicate Moves(a: ClassState, b: ClassState, s: Sched, op: Op, c: string) {
    && b.policy == a.policy
    && b.queued == a.queued + One(OfKind(Taken, c, s, op)) - One(OfKind(Drained, c, s, op))
    && b.active == a.active + One(OfKind(Started, c, s, op)) - One(OfKind(Finished, c, s, op))
    && b.served == a.served + One(OfKind(Started, c, s, op))
    && b.rejected == a.rejected + One(OfKind(Refused, c, s, op))
    && b.deficit == a.deficit - One(OfKind(Started, c, s, op))
  }

  lemma StepMoves(s: Sched, s': Sched, op: Op, c: string)
    requires s'.classes == Apply(s, op)
    ensures Moves(StateOf(s, c), StateOf(s', c), s, op, c)
    ensures WithinQuota(StateOf(s, c)) ==> WithinQuota(StateOf(s', c))
  {
    match op
    case Admit(d, payload) => AdmitMoves(s, s', d, payload, c);
    case Serve(_) =>
    case Complete(_) =>
  }

  lemma AdmitMoves(s: Sched, s': Sched, d: string, payload: int, c: string)
    requires s'.classes == AfterAdmit(s, d, payload)
    ensures Moves(StateOf(s, c), StateOf(s', c), s, Admit(d, payload), c)
    ensures WithinQuota(StateOf(s, c)) ==> WithinQuota(StateOf(s', c))
  {
    AdmitMeans(StateOf(s, d), payload);
    hide AdmitVerdict, HasRoom, Fresh;
    if HasRoom(StateOf(s, d), payload) && StateOf(s, d).policy.quota.maxQueued > 0 {
      RoomMeans(StateOf(s, d), payload);
    }
  }

  lemma RoomMeans(c: ClassState, payload: int)
    requires HasRoom(c, payload) && c.policy.quota.maxQueued > 0
    ensures c.queued < c.policy.quota.maxQueued
  {
  }

  /**
   Over every run and for every class: queued is admitted less drained, active is started less
   finished, and the counters of served and refused requests count exactly those calls.
   */
  lemma {:induction false} Ledger(states: seq<Sched>, ops: seq<Op>, i: nat, c: string)
    requires IsRun(states, ops) && i < |states|
    ensures var a, b := StateOf(states[0], c), StateOf(states[i], c);
            && b.policy == a.policy
            && b.queued == a.queued + Times(states, ops, i, Taken, c) - Times(states, ops, i, Drained, c)
            && b.active == a.active + Times(states, ops, i, Started, c) - Times(states, ops, i, Finished, c)
            && b.served == a.served + Times(states, ops, i, Started, c)
            && b.rejected == a.rejected + Times(states, ops, i, Refused, c)
            && b.deficit == a.deficit - Times(states, ops, i, Started, c)
  {
    hide Apply, OfKind, StateOf;
    if i > 0 {
      Ledger(states, ops, i - 1, c);
      StepMoves(states[i - 1], states[i], ops[i - 1], c);
    }
  }

  /** A class that starts within its quota of queued requests never exceeds it. */
  lemma {:induction false} QuotaKept(states: seq<Sched>, ops: seq<Op>, i: nat, c: string)
    requires IsRun(states, ops) && i < |states| && WithinQuota(StateOf(states[0], c))
    ensures WithinQuota(StateOf(states[i], c))
  {
    hide Apply, StateOf, WithinQuota;
    if i > 0 {
      QuotaKept(states, ops, i - 1, c);
      StepMoves(states[i - 1], states[i], ops[i - 1], c);
    }
  }
}
