/** Bringing the safety rules up to the current epoch, and retrying a request that found them behind. */
module SafetyInit {
  import opened Wrappers
  import CatchUp

  datatype Outcome = Initialized | OutOfDate(prev: nat, curr: nat) | Failed

  datatype Tried<S> = Tried(state: S, outcome: Outcome)

  predicate Advanced(o: Outcome) { o.OutOfDate? && o.prev < o.curr }

  /** What is asked of an implementation, for every proof the storage serves: the waypoints it reports
      start from the one it had, end at the one it has now, and stay below a bound. */
  ghost predicate Continues<S(!new), P(!new)>(waypoint: S -> nat, proofs: nat -> Option<P>, init: (S, P) -> Tried<S>,
      bound: nat) {
    forall s, v | proofs(v).Some? && Advanced(init(s, proofs(v).value).outcome) ::
      Continued(waypoint, s, init(s, proofs(v).value), bound)
  }

  predicate Continued<S(!new)>(waypoint: S -> nat, s: S, t: Tried<S>, bound: nat)
    requires t.outcome.OutOfDate?
  {
    t.outcome.prev == waypoint(s) && t.outcome.curr == waypoint(t.state) <= bound
  }

  /** One round of the loop leads from a state to a later one. */
  ghost predicate Progresses<S, P>(waypoint: S -> nat, proofs: nat -> Option<P>, init: (S, P) -> Tried<S>, s: S, t: S)
  {
    var p := proofs(waypoint(s));
    p.Some? && Advanced(init(s, p.value).outcome) && init(s, p.value).state == t
  }

  /** The loop stops in a state: without a proof for it, or with an answer that is no report of progress. */
  ghost predicate Stops<S, P>(waypoint: S -> nat, proofs: nat -> Option<P>, init: (S, P) -> Tried<S>, s: S,
      end: Tried<S>)
  {
    var p := proofs(waypoint(s));
    !Advanced(end.outcome) && end == if p.None? then Tried(s, Failed) else init(s, p.value)
  }

  /** The states the loop goes through, from the first to the one it stops in. */
  ghost predicate Loops<S, P>(waypoint: S -> nat, proofs: nat -> Option<P>, init: (S, P) -> Tried<S>,
      states: seq<S>, end: Tried<S>)
  {
    && states != [] && Stops(waypoint, proofs, init, states[|states| - 1], end)
    && forall i :: 0 <= i < |states| - 1 ==> Progresses(waypoint, proofs, init, states[i], states[i + 1])
  }

  ghost predicate Increasing<S>(waypoint: S -> nat, s: seq<S>) {
    forall i, j :: 0 <= i < j < |s| ==> waypoint(s[i]) < waypoint(s[j])
  }

  /** For every such implementation the loop ends, and asks with strictly increasing waypoints. */
  method PerformInitialize<S(!new), P(!new)>(s0: S, waypoint: S -> nat, proofs: nat -> Option<P>,
      init: (S, P) -> Tried<S>, ghost bound: nat)
    returns (s: S, r: Outcome, ghost states: seq<S>)
    requires Continues(waypoint, proofs, init, bound)
    ensures Loops(waypoint, proofs, init, states, Tried(s, r)) && states[0] == s0
    ensures Increasing(waypoint, states)
  {
    s := s0;
    var version := waypoint(s0);
    states := [s0];
    while true
      invariant version == waypoint(s) && Increasing(waypoint, states) && states != []
      invariant states[0] == s0 && states[|states| - 1] == s
      invariant forall i :: 0 <= i < |states| - 1 ==> Progresses(waypoint, proofs, init, states[i], states[i + 1])
      decreases bound - version
    {
      var p := proofs(version);
      if p.None? { return s, Failed, states; }
      var t := init(s, p.value);
      assert Advanced(t.outcome) ==> Continued(waypoint, s, t, bound);
      if !Advanced(t.outcome) { return t.state, t.outcome, states; }
      s, version := t.state, t.outcome.curr;
      states := states + [s];
    }
  }

  datatype Answer<T> = Done(value: T) | NeedsInit | Refused

  /** Some run of the loop from `s` ends so. */
  ghost predicate EndsIn<S(!new), P(!new)>(waypoint: S -> nat, proofs: nat -> Option<P>, init: (S, P) -> Tried<S>, s: S,
      end: Tried<S>)
  {
    exists states :: Loops(waypoint, proofs, init, states, end) && states[0] == s
  }

  /** A request runs once, or, if it found the rules behind, twice with a successful initialisation in
      between; if that fails it is refused. */
  method Retry<S(!new), P(!new), T>(s0: S, op: S -> (S, Answer<T>), waypoint: S -> nat,
      proofs: nat -> Option<P>, init: (S, P) -> Tried<S>, ghost bound: nat)
    returns (s: S, r: Answer<T>, ghost mid: Tried<S>)
    requires Continues(waypoint, proofs, init, bound)
    ensures !op(s0).1.NeedsInit? ==> (s, r) == op(s0)
    ensures op(s0).1.NeedsInit? ==>
      && EndsIn(waypoint, proofs, init, op(s0).0, mid)
      && (mid.outcome.Initialized? ==> (s, r) == op(mid.state))
      && (!mid.outcome.Initialized? ==> s == mid.state && r.Refused?)
  {
    var first := op(s0);
    mid := Tried(first.0, Failed);
    if !first.1.NeedsInit? { return first.0, first.1, mid; }
    var state, outcome;
    ghost var states;
    state, outcome, states := PerformInitialize(first.0, waypoint, proofs, init, bound);
    mid := Tried(state, outcome);
    if !outcome.Initialized? { return state, Refused, mid; }
    var second := op(state);
    return second.0, second.1, mid;
  }

  // ---------- the real implementation over a real storage ----------

  /** How many epochs the storage serves at once. */
  const PAGE := CatchUp.MAX_LEDGER_INFOS

  /** The waypoint certifies the end of epoch `waypoint`; the safety data are of epoch `epoch`. */
  datatype Position = Position(waypoint: nat, epoch: nat, hasKey: bool)

  /** The ends of epochs `first ..= last`. */
  datatype Proof = Proof(first: nat, last: nat)

  /** The storage has the ends of epochs `0 .. ended` and serves a page of them. */
  function ProofFrom(ended: nat, k: nat): Option<Proof> {
    if k >= ended then None
    else Some(Proof(k, (if ended - k > PAGE then k + PAGE else ended) - 1))
  }

  /** One initialisation: `version` gives the version at which an epoch ended. */
  function GuardedInitialize(version: nat -> nat, s: Position, p: Proof): Tried<Position> {
    if p.first != s.waypoint || p.last < p.first then Tried(s, Failed)
    else if s.epoch > p.last + 1 then Tried(s.(waypoint := p.last), OutOfDate(version(s.waypoint), version(p.last)))
    else Tried(s.(waypoint := p.last, epoch := p.last + 1), if s.hasKey then Initialized else Failed)
  }

  /** The real rules are such an implementation. */
  lemma RealRulesContinue(version: nat -> nat, ended: nat, proofs: nat -> Option<Proof>)
    requires forall i, j :: 0 <= i < j ==> version(i) < version(j)
    requires forall v :: proofs(v).Some? ==> proofs(v).value.last < ended
    ensures Continues((s: Position) => version(s.waypoint), proofs,
      (s: Position, p: Proof) => GuardedInitialize(version, s, p), version(ended))
  {
  }

  /** Where the loop ends: at the first page that reaches the epoch of the safety data. */
  function Settle(ended: nat, s: Position): Tried<Position>
    requires s.waypoint < ended
    decreases ended - s.waypoint
  {
    var last := ProofFrom(ended, s.waypoint).value.last;
    if s.epoch <= last + 1 then Tried(s.(waypoint := last, epoch := last + 1), if s.hasKey then Initialized else Failed)
    else if last == s.waypoint then Tried(s, OutOfDate(0, 0))
    else Settle(ended, s.(waypoint := last))
  }

  /** The loop over that storage ends where `Settle` says. */
  method InitializeFromStorage(version: nat -> nat, ended: nat, s0: Position) returns (s: Position, r: Outcome)
    requires s0.waypoint < ended && forall i, j :: 0 <= i < j ==> version(i) < version(j)
    ensures !Advanced(r) && s == Settle(ended, s0).state
    ensures r.Initialized? <==> Settle(ended, s0).outcome.Initialized?
  {
    s := s0;
    while true
      invariant s.waypoint < ended && Settle(ended, s) == Settle(ended, s0)
      decreases ended - s.waypoint
    {
      var p := ProofFrom(ended, s.waypoint).value;
      var t := GuardedInitialize(version, s, p);
      if !Advanced(t.outcome) { return t.state, t.outcome; }
      s := t.state;
    }
  }

  /** It succeeds exactly when the storage has the end of the epoch before the safety data's, and
      the key is there; the epoch never goes back. */
  lemma {:induction false} SettlesIff(ended: nat, s: Position)
    requires s.waypoint < ended
    ensures Settle(ended, s).outcome.Initialized? <==> s.epoch <= ended && s.hasKey
    ensures s.epoch <= Settle(ended, s).state.epoch
    ensures s.epoch <= ended ==> Settle(ended, s).state.epoch <= ended
    decreases ended - s.waypoint
  {
    var last := ProofFrom(ended, s.waypoint).value.last;
    if s.epoch > last + 1 && last != s.waypoint { SettlesIff(ended, s.(waypoint := last)); }
  }

  /** The end of the last page that is cut short, counted from waypoint `k`; pages overlap by one epoch. */
  function LastFullPage(ended: nat, k: nat): nat
    decreases if ended > k then ended - k else 0
  {
    if ended <= k + PAGE then 0
    else if ended <= k + PAGE - 1 + PAGE then k + PAGE
    else LastFullPage(ended, k + PAGE - 1)
  }

  /** The loop may stop before the newest epoch: it reaches it if and only if the safety data are past
      the last page that is cut short. */
  lemma {:induction false} SettlesAtNewestIff(ended: nat, s: Position)
    requires s.waypoint < ended && s.epoch <= ended
    ensures Settle(ended, s).state.epoch == ended <==>
      ended <= s.waypoint + PAGE || LastFullPage(ended, s.waypoint) < s.epoch
    decreases ended - s.waypoint
  {
    var last := ProofFrom(ended, s.waypoint).value.last;
    if s.epoch > last + 1 {
      SettlesAtNewestIff(ended, s.(waypoint := last));
    } else if ended > s.waypoint + PAGE {
      FullPageIsBelow(ended, s.waypoint);
    }
  }

  lemma {:induction false} FullPageIsBelow(ended: nat, k: nat)
    requires ended > k + PAGE
    ensures k + PAGE <= LastFullPage(ended, k) < ended
    decreases ended - k
  {
    if ended > k + PAGE - 1 + PAGE { FullPageIsBelow(ended, k + PAGE - 1); }
  }

  /** Safety data of epoch 1 with a storage 250 epochs further on stop at epoch 100. */
  lemma StopsEarly()
    ensures Settle(251, Position(0, 1, true)) == Tried(Position(99, 100, true), Initialized)
  {
  }
}
