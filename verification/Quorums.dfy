/** Voting power, and why two quorums share an honest validator. */
module Quorums {
  /** The power of the first `n` validators that are in `s`. */
  function PowerUpTo(powers: seq<nat>, s: set<nat>, n: nat): nat
    requires n <= |powers|
  {
    if n == 0 then 0 else PowerUpTo(powers, s, n - 1) + (if n - 1 in s then powers[n - 1] else 0)
  }

  function Power(powers: seq<nat>, s: set<nat>): nat { PowerUpTo(powers, s, |powers|) }

  function TotalUpTo(powers: seq<nat>, n: nat): nat
    requires n <= |powers|
  {
    if n == 0 then 0 else TotalUpTo(powers, n - 1) + powers[n - 1]
  }

  function Total(powers: seq<nat>): nat { TotalUpTo(powers, |powers|) }

  /** The threshold of a validator verifier. */
  function QuorumPower(powers: seq<nat>): nat { if powers == [] then 0 else Total(powers) * 2 / 3 + 1 }

  predicate IsQuorum(powers: seq<nat>, s: set<nat>) { Power(powers, s) >= QuorumPower(powers) }

  /** The threshold is the least power that is more than two thirds of the total. */
  lemma QuorumIsLeast(powers: seq<nat>)
    requires powers != []
    ensures 3 * QuorumPower(powers) > 2 * Total(powers) && 3 * (QuorumPower(powers) - 1) <= 2 * Total(powers)
  {
  }

  /** What is left for the faulty validators when everyone else is needed for a quorum. */
  ghost predicate Tolerable(powers: seq<nat>, byzantine: set<nat>) {
    powers != [] && Power(powers, byzantine) + QuorumPower(powers) <= Total(powers)
  }

  /** That is, less than a third. */
  lemma TolerableIff(powers: seq<nat>, byzantine: set<nat>)
    ensures Tolerable(powers, byzantine) <==> powers != [] && 3 * Power(powers, byzantine) < Total(powers)
  {
  }

  /** Power adds up over the members of a set. */
  lemma {:induction false} PowerAdds(powers: seq<nat>, a: set<nat>, v: nat, n: nat)
    requires n <= |powers| && v !in a
    ensures PowerUpTo(powers, {}, n) == 0 && PowerUpTo(powers, {v}, n) == (if v < n then powers[v] else 0)
    ensures PowerUpTo(powers, a + {v}, n) == PowerUpTo(powers, a, n) + PowerUpTo(powers, {v}, n)
  {
    if n > 0 { PowerAdds(powers, a, v, n - 1); }
  }

  lemma {:induction false} InclusionExclusion(powers: seq<nat>, a: set<nat>, b: set<nat>, n: nat)
    requires n <= |powers|
    ensures PowerUpTo(powers, a, n) + PowerUpTo(powers, b, n) <= TotalUpTo(powers, n) + PowerUpTo(powers, a * b, n)
  {
    if n > 0 { InclusionExclusion(powers, a, b, n - 1); }
  }

  lemma {:induction false} PowerMonotone(powers: seq<nat>, a: set<nat>, b: set<nat>, n: nat)
    requires n <= |powers| && a <= b
    ensures PowerUpTo(powers, a, n) <= PowerUpTo(powers, b, n)
  {
    if n > 0 { PowerMonotone(powers, a, b, n - 1); }
  }

  /** Any two quorums have an honest validator in common. */
  lemma HonestOverlap(powers: seq<nat>, byzantine: set<nat>, a: set<nat>, b: set<nat>) returns (v: nat)
    requires IsQuorum(powers, a) && IsQuorum(powers, b) && Tolerable(powers, byzantine)
    ensures v in a && v in b && v !in byzantine
  {
    InclusionExclusion(powers, a, b, |powers|);
    if a * b <= byzantine {
      PowerMonotone(powers, a * b, byzantine, |powers|);
    }
    assert !(a * b <= byzantine);
    v :| v in a * b && v !in byzantine;
  }
}
