/** Two runs that are not careful, and disagree: each condition of the agreement result is needed. */
module ReplicaExamples {
  import opened Wrappers
  import opened Quorums
  import opened SafetyRules
  import opened Agreement
  import opened Replicas

  /** A block on top of the genesis block of epoch 2. */
  function Child(round: nat, payload: nat): Block { Node(2, round, Genesis(2), payload) }

  lemma Apart(i: nat, j: nat, a: nat, b: nat)
    requires (i, a) != (j, b)
    ensures !Extends(Child(i, a), Child(j, b)) && !Extends(Child(j, b), Child(i, a))
  {
    assert !Extends(Genesis(2), Child(j, b)) && !Extends(Genesis(2), Child(i, a));
  }

  // ---------- a write that failed but reached the disk ----------

  /** Validator 1 is faulty and has most of the power in epoch 1; epoch 2 is validator 0 alone. */
  function Handover(): Setup { Setup((e: nat) => if e == 1 then [1, 3] else [1], {1}) }

  /** Validator 0 enters epoch 1, then epoch 2 by such a write, and order-votes for two blocks that only
      validator 1 has signed. */
  function MixedActions(): seq<Action> {
    [ Initialise(0, 1, true, Written),
      Initialise(0, 2, true, WrittenButFailed),
      SignOrderVote(0, Child(1, 0), {1}, Written),
      SignOrderVote(0, Child(1, 1), {1}, Written)]
  }

  lemma MixedSites()
    ensures var s, start, a := Handover(), Booted(1, 1), MixedActions();
      && ActAll(s, start, a, 2) == Cluster([Site(SafetyData(2, 0, 0, 0, None, 0), true, Some(1))], Released({}, {}, {}))
      && Mixed(ActAll(s, start, a, 2).sites[0]) && !Careful(s, ActAll(s, start, a, 2), a[2])
  {
    var s, start, a := Handover(), Booted(1, 1), MixedActions();
    assert start.sites == [Fresh(1)];
    assert ActAll(s, start, a, 1).sites == [Site(SafetyData(1, 0, 0, 0, None, 0), true, Some(1))];
  }

  lemma AloneIsEnough(powers: seq<nat>, v: nat)
    requires (powers == [1] && v == 0) || (powers == [1, 3] && v == 1)
    ensures IsQuorum(powers, {v})
  {
    assert PowerUpTo(powers, {v}, 1) == (if v == 0 then powers[0] else 0);
    assert TotalUpTo(powers, 1) == powers[0];
  }

  lemma MixedOrders()
    ensures var rel := ActAll(Handover(), Booted(1, 1), MixedActions(), 4).rel;
      Vote(0, Child(1, 0)) in rel.orders && Vote(0, Child(1, 1)) in rel.orders
  {
    var s, start, a := Handover(), Booted(1, 1), MixedActions();
    MixedSites();
    AloneIsEnough([1, 3], 1);
    var c := ActAll(s, start, a, 3);
    assert c.rel.orders == {Vote(0, Child(1, 0))} && c.sites[0].ready && c.sites[0].verifier == Some(1);
    assert c.sites[0].data == SafetyData(2, 0, 0, 1, None, 0);
  }

  /** The faulty validator has no power in epoch 2, and yet two blocks of epoch 2 on different branches
      are committed. */
  method MixedMayDisagree() returns (rel: Released)
    ensures rel == ActAll(Handover(), Booted(1, 1), MixedActions(), |MixedActions()|).rel
    ensures Tolerable(Handover().powers(2), Handover().byzantine)
    ensures ShownCommitted(Handover(), rel, Child(1, 0)) && ShownCommitted(Handover(), rel, Child(1, 1))
    ensures !OneBranchIfSafe(Handover(), Child(1, 0), Child(1, 1))
  {
    rel := Run(Handover(), 1, 1, MixedActions());
    MixedOrders();
    Alone(Handover(), rel, Child(1, 0));
    Alone(Handover(), rel, Child(1, 1));
    Apart(1, 1, 0, 1);
  }

  /** Where validator 0 is all there is, its order vote commits a block. */
  lemma Alone(s: Setup, rel: Released, b: Block)
    requires s.powers(b.epoch) == [1] && 0 !in s.byzantine && Vote(0, b) in rel.orders
    ensures Tolerable(s.powers(b.epoch), s.byzantine) && ShownCommitted(s, rel, b)
  {
    AloneIsEnough([1], 0);
    assert PowerUpTo([1], s.byzantine, 1) == PowerUpTo([1], s.byzantine, 0);
    assert AllSigned(s.byzantine, rel.orders, {0}, b);
    assert HasQuorum(s, rel.orders, b);
  }

  // ---------- a timeout certificate of another epoch ----------

  /** Validator 0 is alone in every epoch, and nobody is faulty. */
  function Solo(): Setup { Setup((e: nat) => [1], {}) }

  function OldTc(): TimeoutCert { TimeoutCert(1, 1, 0, map[0 := 0]) }

  /** Validator 0 times out of round 1 of epoch 1, orders a block of round 1 of epoch 2, and then votes
      past it with the old timeout certificate. */
  function OldTcActions(): seq<Action> {
    var none := Cert(Genesis(1), {});
    [ Initialise(0, 1, true, Written),
      SignTimeout(0, 1, 1, none, None, none, Written),
      Initialise(0, 2, true, Written),
      SignVote(0, Child(1, 0), {}, None, none, Written),
      SignOrderVote(0, Child(1, 0), {0}, Written),
      SignVote(0, Child(2, 0), {}, Some(OldTc()), none, Written),
      SignOrderVote(0, Child(2, 0), {0}, Written)]
  }

  lemma FirstOrder()
    ensures var c := ActAll(Solo(), Booted(1, 1), OldTcActions(), 5);
      && c.sites == [Site(SafetyData(2, 1, 0, 1, Some(Child(1, 0)), 0), true, Some(2))]
      && c.rel == Released({Vote(0, Child(1, 0))}, {Vote(0, Child(1, 0))}, {Timeout(0, 1, 1, 0)})
  {
    var s, start, a := Solo(), Booted(1, 1), OldTcActions();
    AloneIsEnough([1], 0);
    assert start.sites == [Fresh(1)];
    assert ActAll(s, start, a, 1).sites == [Site(SafetyData(1, 0, 0, 0, None, 0), true, Some(1))];
    assert ActAll(s, start, a, 2)
      == Cluster([Site(SafetyData(1, 1, 0, 0, None, 1), true, Some(1))], Released({}, {}, {Timeout(0, 1, 1, 0)}));
    assert ActAll(s, start, a, 3)
      == Cluster([Site(SafetyData(2, 0, 0, 0, None, 0), true, Some(2))], Released({}, {}, {Timeout(0, 1, 1, 0)}));
    assert ActAll(s, start, a, 4)
      == Cluster([Site(SafetyData(2, 1, 0, 0, Some(Child(1, 0)), 0), true, Some(2))],
        Released({Vote(0, Child(1, 0))}, {}, {Timeout(0, 1, 1, 0)}));
  }

  lemma OldTcChecks(rel: Released)
    requires Timeout(0, 1, 1, 0) in rel.timeouts
    ensures MaybeTcChecks(Solo(), 2, rel, Some(OldTc()), Cert(Genesis(1), {}))
  {
    AloneIsEnough([1], 0);
    assert OldTc().signers.Keys == {0};
    assert 0 in OldTc().signers && OldTc().signers[0] == 0;
  }

  lemma VotesPast()
    ensures var c := ActAll(Solo(), Booted(1, 1), OldTcActions(), 6);
      && c.sites == [Site(SafetyData(2, 2, 0, 1, Some(Child(2, 0)), 0), true, Some(2))]
      && Vote(0, Child(2, 0)) in c.rel.votes && Vote(0, Child(1, 0)) in c.rel.orders
  {
    var c := ActAll(Solo(), Booted(1, 1), OldTcActions(), 5);
    FirstOrder();
    OldTcChecks(c.rel);
    assert ActAll(Solo(), Booted(1, 1), OldTcActions(), 6) == Act(Solo(), c, OldTcActions()[5]);
  }

  lemma SecondOrder()
    ensures var rel := ActAll(Solo(), Booted(1, 1), OldTcActions(), 7).rel;
      Vote(0, Child(1, 0)) in rel.orders && Vote(0, Child(2, 0)) in rel.orders
  {
    var c := ActAll(Solo(), Booted(1, 1), OldTcActions(), 6);
    VotesPast();
    AloneIsEnough([1], 0);
    assert ActAll(Solo(), Booted(1, 1), OldTcActions(), 7) == Act(Solo(), c, OldTcActions()[6]);
  }

  /** Although nobody is faulty, two blocks of epoch 2 on different branches are committed. */
  method OldTcMayDisagree() returns (rel: Released)
    ensures rel == ActAll(Solo(), Booted(1, 1), OldTcActions(), |OldTcActions()|).rel
    ensures Tolerable(Solo().powers(2), Solo().byzantine) && Solo().byzantine == {}
    ensures ShownCommitted(Solo(), rel, Child(1, 0)) && ShownCommitted(Solo(), rel, Child(2, 0))
    ensures !OneBranchIfSafe(Solo(), Child(1, 0), Child(2, 0))
  {
    rel := Run(Solo(), 1, 1, OldTcActions());
    SecondOrder();
    Alone(Solo(), rel, Child(1, 0));
    Alone(Solo(), rel, Child(2, 0));
    Apart(1, 2, 0, 0);
  }
}
