/** The components do commit blocks: from start-up, two rounds of votes are enough. */
module ReplicaProgress {
  import opened Wrappers
  import opened Quorums
  import opened SafetyRules
  import opened Agreement
  import opened Replicas

  function EnterAll(n: nat, epoch: nat): seq<Action> { seq(n, (v: nat) => Initialise(v, epoch, true, Written)) }

  /** Everyone is asked to vote for `b`, with `qc` as the signers of its parent's certificate. */
  function VoteAll(n: nat, b: Block, qc: set<nat>, tc: Option<TimeoutCert>, tcQc: Cert): seq<Action> {
    seq(n, (v: nat) => SignVote(v, b, qc, tc, tcQc, Written))
  }

  lemma {:induction false} ActAllAppend(s: Setup, c: Cluster, a: seq<Action>, b: seq<Action>, k: nat)
    requires k <= |b|
    ensures ActAll(s, c, a + b, |a| + k) == ActAll(s, ActAll(s, c, a, |a|), b, k)
  {
    if k == 0 {
      ActAllPrefix(s, c, a, b, |a|);
    } else {
      ActAllAppend(s, c, a, b, k - 1);
    }
  }

  lemma {:induction false} ActAllPrefix(s: Setup, c: Cluster, a: seq<Action>, b: seq<Action>, k: nat)
    requires k <= |a|
    ensures ActAll(s, c, a + b, k) == ActAll(s, c, a, k)
  {
    if k > 0 { ActAllPrefix(s, c, a, b, k - 1); }
  }

  /** Ready to vote for `b`, with the validator set of its epoch. */
  predicate Eager(x: Site, b: Block) { x.ready && x.verifier == Some(b.epoch) && Ready(x.data, b) }

  predicate HasVotedFor(c: Cluster, v: nat, b: Block) {
    && v < |c.sites| && Vote(v, b) in c.rel.votes
    && c.sites[v].ready && c.sites[v].verifier == Some(b.epoch)
    && c.sites[v].data.epoch == b.epoch && c.sites[v].data.lastVoted == b.Round()
    && c.sites[v].data.lastVote == Some(b)
  }

  /** The proposal is acceptable with the certificates that come along. */
  predicate Acceptable(s: Setup, rel: Released, b: Block, qc: set<nat>, tc: Option<TimeoutCert>, tcQc: Cert) {
    && WellFormedProposal(b) && SafeToVote(b, tc) && CertChecks(s, b.epoch, rel, Cert(b.parent, qc))
    && MaybeTcChecks(s, b.epoch, rel, tc, tcQc)
  }

  predicate Grown(a: Released, b: Released) { a.votes <= b.votes && a.orders <= b.orders && a.timeouts <= b.timeouts }

  lemma AcceptableStays(s: Setup, a: Released, b: Released, p: Block, qc: set<nat>, tc: Option<TimeoutCert>, tcQc: Cert)
    requires Grown(a, b) && Acceptable(s, a, p, qc, tc, tcQc)
    ensures Acceptable(s, b, p, qc, tc, tcQc)
  {
  }

  lemma EagerVotes(s: Setup, c: Cluster, v: nat, b: Block, qc: set<nat>, tc: Option<TimeoutCert>, tcQc: Cert)
    requires v < |c.sites| && v !in s.byzantine && Eager(c.sites[v], b) && Acceptable(s, c.rel, b, qc, tc, tcQc)
    ensures var c' := Act(s, c, SignVote(v, b, qc, tc, tcQc, Written));
      && HasVotedFor(c', v, b) && Grown(c.rel, c'.rel) && |c'.sites| == |c.sites|
      && forall u :: 0 <= u < |c.sites| && u != v ==> c'.sites[u] == c.sites[u]
  {
  }

  lemma {:induction false} AllVoteFor(s: Setup, c: Cluster, b: Block, qc: set<nat>, tc: Option<TimeoutCert>,
      tcQc: Cert, k: nat)
    requires k <= |c.sites| && Acceptable(s, c.rel, b, qc, tc, tcQc)
    requires forall v :: 0 <= v < |c.sites| && v !in s.byzantine ==> Eager(c.sites[v], b)
    ensures var c' := ActAll(s, c, VoteAll(|c.sites|, b, qc, tc, tcQc), k);
      && |c'.sites| == |c.sites| && Grown(c.rel, c'.rel)
      && (forall v :: 0 <= v < k && v !in s.byzantine ==> HasVotedFor(c', v, b))
      && (forall v :: k <= v < |c.sites| ==> c'.sites[v] == c.sites[v])
  {
    if k > 0 {
      AllVoteFor(s, c, b, qc, tc, tcQc, k - 1);
      var mid := ActAll(s, c, VoteAll(|c.sites|, b, qc, tc, tcQc), k - 1);
      if k - 1 !in s.byzantine {
        AcceptableStays(s, c.rel, mid.rel, b, qc, tc, tcQc);
        EagerVotes(s, mid, k - 1, b, qc, tc, tcQc);
      }
    }
  }

  /** A quorum of honest validators. */
  ghost predicate Quorate(s: Setup, n: nat, epoch: nat, honest: set<nat>) {
    IsQuorum(s.powers(epoch), honest) && forall v :: v in honest ==> v < n && v !in s.byzantine
  }

  lemma VotersCertify(s: Setup, c: Cluster, b: Block, honest: set<nat>)
    requires Quorate(s, |c.sites|, b.epoch, honest)
    requires forall v :: 0 <= v < |c.sites| && v !in s.byzantine ==> HasVotedFor(c, v, b)
    ensures CertChecks(s, b.epoch, c.rel, Cert(b, honest)) && Certified(s, AsWorld(c.rel), b)
  {
    forall v | v in honest ensures Vote(v, b) in c.rel.votes { assert HasVotedFor(c, v, b); }
    assert AllSigned(s.byzantine, c.rel.votes, honest, b);
  }

  lemma VotersAreEager(s: Setup, c: Cluster, b: Block, child: Block)
    requires child.Node? && child.epoch == b.epoch && child.round == b.Round() + 1
    requires forall v :: 0 <= v < |c.sites| && v !in s.byzantine ==> HasVotedFor(c, v, b)
    ensures forall v :: 0 <= v < |c.sites| && v !in s.byzantine ==> Eager(c.sites[v], child)
  {
    forall v | 0 <= v < |c.sites| && v !in s.byzantine ensures Eager(c.sites[v], child) { assert HasVotedFor(c, v, b); }
  }

  lemma OneRound(s: Setup, c: Cluster, b: Block, qc: set<nat>, tc: Option<TimeoutCert>, tcQc: Cert, honest: set<nat>)
    returns (c': Cluster)
    requires Acceptable(s, c.rel, b, qc, tc, tcQc) && Quorate(s, |c.sites|, b.epoch, honest)
    requires forall v :: 0 <= v < |c.sites| && v !in s.byzantine ==> Eager(c.sites[v], b)
    ensures c' == ActAll(s, c, VoteAll(|c.sites|, b, qc, tc, tcQc), |c.sites|) && |c'.sites| == |c.sites|
    ensures CertChecks(s, b.epoch, c'.rel, Cert(b, honest)) && Certified(s, AsWorld(c'.rel), b)
    ensures forall v :: 0 <= v < |c.sites| && v !in s.byzantine ==> HasVotedFor(c', v, b)
  {
    c' := ActAll(s, c, VoteAll(|c.sites|, b, qc, tc, tcQc), |c.sites|);
    AllVoteFor(s, c, b, qc, tc, tcQc, |c.sites|);
    VotersCertify(s, c', b, honest);
  }

  /** From any state in which every honest validator is eager for `b`, and whatever came before, asking
      everyone to vote for `b` and then for a child of `b` shows `b` to be committed. */
  lemma {:induction false} TwoRoundsShow(s: Setup, c: Cluster, b: Block, qc: set<nat>, tc: Option<TimeoutCert>,
      tcQc: Cert, child: Block, honest: set<nat>)
    requires Acceptable(s, c.rel, b, qc, tc, tcQc) && Quorate(s, |c.sites|, b.epoch, honest)
    requires child.Node? && child.parent == b && child.epoch == b.epoch && child.round == b.Round() + 1
    requires forall v :: 0 <= v < |c.sites| && v !in s.byzantine ==> Eager(c.sites[v], b)
    ensures var n := |c.sites|; var votes := VoteAll(n, b, qc, tc, tcQc) + VoteAll(n, child, honest, None, tcQc);
      ShownCommitted(s, ActAll(s, c, votes, n + n).rel, b)
  {
    var n := |c.sites|;
    var mid := OneRound(s, c, b, qc, tc, tcQc, honest);
    VotersAreEager(s, mid, b, child);
    var end := OneRound(s, mid, child, honest, None, tcQc, honest);
    assert TwoChain(s, AsWorld(end.rel), b, child);
    ActAllAppend(s, c, VoteAll(n, b, qc, tc, tcQc), VoteAll(n, child, honest, None, tcQc), n);
  }

  // ---------- order votes ----------

  function OrderAll(n: nat, b: Block, qc: set<nat>): seq<Action> {
    seq(n, (v: nat) => SignOrderVote(v, b, qc, Written))
  }

  /** Ready to order `b`: in its epoch, and not timed out of its round. */
  predicate CanOrder(x: Site, b: Block) {
    x.ready && x.verifier == Some(b.epoch) && x.data.epoch == b.epoch && x.data.highestTimeout < b.Round()
  }

  lemma {:induction false} AllOrderFor(s: Setup, c: Cluster, b: Block, qc: set<nat>, k: nat)
    requires k <= |c.sites| && CertChecks(s, b.epoch, c.rel, Cert(b, qc))
    requires forall v :: 0 <= v < |c.sites| && v !in s.byzantine ==> CanOrder(c.sites[v], b)
    ensures var c' := ActAll(s, c, OrderAll(|c.sites|, b, qc), k);
      && |c'.sites| == |c.sites| && Grown(c.rel, c'.rel)
      && (forall v :: 0 <= v < k && v !in s.byzantine ==> Vote(v, b) in c'.rel.orders)
      && (forall v :: k <= v < |c.sites| ==> c'.sites[v] == c.sites[v])
  {
    if k > 0 { AllOrderFor(s, c, b, qc, k - 1); }
  }

  /** Asking everyone to order a certified block shows it to be committed. */
  lemma OrdersShow(s: Setup, c: Cluster, b: Block, qc: set<nat>, honest: set<nat>)
    requires CertChecks(s, b.epoch, c.rel, Cert(b, qc)) && Quorate(s, |c.sites|, b.epoch, honest)
    requires forall v :: 0 <= v < |c.sites| && v !in s.byzantine ==> CanOrder(c.sites[v], b)
    ensures ShownCommitted(s, ActAll(s, c, OrderAll(|c.sites|, b, qc), |c.sites|).rel, b)
  {
    AllOrderFor(s, c, b, qc, |c.sites|);
    assert AllSigned(s.byzantine, ActAll(s, c, OrderAll(|c.sites|, b, qc), |c.sites|).rel.orders, honest, b);
  }

  // ---------- lost rounds ----------

  /** Everyone is asked to time out of a round, reporting the certificate `hqc`. */
  function TimeoutAll(n: nat, round: nat, hqc: Cert, tc: Option<TimeoutCert>): seq<Action> {
    seq(n, (v: nat) => SignTimeout(v, hqc.block.epoch, round, hqc, tc, hqc, Written))
  }

  predicate CanLeave(x: Site, round: nat, hqc: Block) {
    x.ready && x.verifier == Some(hqc.epoch) && CanTimeOut(x.data, round, hqc)
  }

  predicate HasLeft(c: Cluster, v: nat, round: nat, hqc: Block) {
    && v < |c.sites| && Timeout(v, hqc.epoch, round, hqc.Round()) in c.rel.timeouts
    && c.sites[v].data.lastVoted == round && CanLeave(c.sites[v], round, hqc)
  }

  /** The round may be left: it comes right after `hqc`, or after the round of a certificate. */
  predicate Leavable(s: Setup, rel: Released, round: nat, hqc: Cert, tc: Option<TimeoutCert>) {
    && hqc.block.Round() < round && CertChecks(s, hqc.block.epoch, rel, hqc)
    && MaybeTcChecks(s, hqc.block.epoch, rel, tc, hqc)
    && (round == hqc.block.Round() + 1 || (tc.Some? && round == tc.value.round + 1))
  }

  lemma OneLeaves(s: Setup, c: Cluster, v: nat, round: nat, hqc: Cert, tc: Option<TimeoutCert>)
    requires v < |c.sites| && v !in s.byzantine && CanLeave(c.sites[v], round, hqc.block)
    requires Leavable(s, c.rel, round, hqc, tc)
    ensures var c' := Act(s, c, SignTimeout(v, hqc.block.epoch, round, hqc, tc, hqc, Written));
      && HasLeft(c', v, round, hqc.block) && Grown(c.rel, c'.rel) && |c'.sites| == |c.sites|
      && forall u :: 0 <= u < |c.sites| && u != v ==> c'.sites[u] == c.sites[u]
  {
  }

  lemma LeavableStays(s: Setup, a: Released, b: Released, round: nat, hqc: Cert, tc: Option<TimeoutCert>)
    requires Grown(a, b) && Leavable(s, a, round, hqc, tc)
    ensures Leavable(s, b, round, hqc, tc)
  {
  }

  lemma {:induction false} AllLeave(s: Setup, c: Cluster, round: nat, hqc: Cert, tc: Option<TimeoutCert>, k: nat)
    requires k <= |c.sites| && Leavable(s, c.rel, round, hqc, tc)
    requires forall v :: 0 <= v < |c.sites| && v !in s.byzantine ==> CanLeave(c.sites[v], round, hqc.block)
    ensures var c' := ActAll(s, c, TimeoutAll(|c.sites|, round, hqc, tc), k);
      && |c'.sites| == |c.sites| && Grown(c.rel, c'.rel)
      && (forall v :: 0 <= v < k && v !in s.byzantine ==> HasLeft(c', v, round, hqc.block))
      && (forall v :: k <= v < |c.sites| ==> c'.sites[v] == c.sites[v])
  {
    if k > 0 {
      AllLeave(s, c, round, hqc, tc, k - 1);
      var mid := ActAll(s, c, TimeoutAll(|c.sites|, round, hqc, tc), k - 1);
      if k - 1 !in s.byzantine {
        LeavableStays(s, c.rel, mid.rel, round, hqc, tc);
        OneLeaves(s, mid, k - 1, round, hqc, tc);
      }
    }
  }

  lemma LeaversCertify(s: Setup, c: Cluster, round: nat, hqc: Cert, honest: set<nat>)
    requires Quorate(s, |c.sites|, hqc.block.epoch, honest) && honest != {}
    requires hqc.block.Round() < round && CertChecks(s, hqc.block.epoch, c.rel, hqc)
    requires forall v :: 0 <= v < |c.sites| && v !in s.byzantine ==> HasLeft(c, v, round, hqc.block)
    ensures TcChecks(s, hqc.block.epoch, c.rel, TcOf(hqc.block, round, honest), hqc)
  {
    var tc := TcOf(hqc.block, round, honest);
    assert tc.signers.Keys == honest;
    var u :| u in honest;
    assert u in tc.signers && tc.signers[u] == tc.hqc;
    forall v | v in tc.signers ensures Timeout(v, tc.epoch, tc.round, tc.signers[v]) in c.rel.timeouts {
      assert HasLeft(c, v, round, hqc.block);
    }
  }

  /** `k` rounds after `hqc` are lost, and the next one can be left too. */
  ghost predicate Lost(s: Setup, c: Cluster, hqc: Cert, honest: set<nat>, k: nat) {
    && Quorate(s, |c.sites|, hqc.block.epoch, honest) && honest != {}
    && Leavable(s, c.rel, hqc.block.Round() + k + 1, hqc, TcAfter(hqc.block, honest, k))
    && (forall v | 0 <= v < |c.sites| && v !in s.byzantine ::
          && CanLeave(c.sites[v], hqc.block.Round() + k + 1, hqc.block)
          && (k > 0 ==> HasLeft(c, v, hqc.block.Round() + k, hqc.block)))
  }

  ghost function LostRound(s: Setup, hqc: Cert, honest: set<nat>): (Cluster, nat) -> Cluster {
    (c: Cluster, j: nat) =>
      ActAll(s, c, TimeoutAll(|c.sites|, hqc.block.Round() + j + 1, hqc, TcAfter(hqc.block, honest, j)), |c.sites|)
  }

  /** Everyone is asked to time out of `k` rounds in a row, each time with the certificate of the round
      before. */
  ghost function AfterLost(s: Setup, c: Cluster, hqc: Cert, honest: set<nat>, k: nat): Cluster {
    Iterate(LostRound(s, hqc, honest), c, k)
  }

  lemma OneMoreLost(s: Setup, c: Cluster, hqc: Cert, honest: set<nat>, k: nat)
    requires Lost(s, c, hqc, honest, k)
    ensures var c' := LostRound(s, hqc, honest)(c, k); |c'.sites| == |c.sites| && Lost(s, c', hqc, honest, k + 1)
  {
    var round, tc := hqc.block.Round() + k + 1, TcAfter(hqc.block, honest, k);
    AllLeave(s, c, round, hqc, tc, |c.sites|);
    var c' := ActAll(s, c, TimeoutAll(|c.sites|, round, hqc, tc), |c.sites|);
    LeavableStays(s, c.rel, c'.rel, round, hqc, tc);
    LeaversCertify(s, c', round, hqc, honest);
    forall v | 0 <= v < |c'.sites| && v !in s.byzantine
      ensures CanLeave(c'.sites[v], round + 1, hqc.block) && HasLeft(c', v, round, hqc.block)
    {
      assert HasLeft(c', v, round, hqc.block);
    }
  }

  lemma {:induction false} RoundsMayBeLost(s: Setup, c: Cluster, hqc: Cert, honest: set<nat>, k: nat)
    requires Lost(s, c, hqc, honest, 0)
    ensures |AfterLost(s, c, hqc, honest, k).sites| == |c.sites|
    ensures Lost(s, AfterLost(s, c, hqc, honest, k), hqc, honest, k)
  {
    var step := LostRound(s, hqc, honest);
    var good := (c': Cluster, j: nat) => |c'.sites| == |c.sites| && Lost(s, c', hqc, honest, j);
    forall c': Cluster, j: nat | good(c', j) ensures good(step(c', j), j + 1) { OneMoreLost(s, c', hqc, honest, j); }
    IterateKeeps(step, good, c, k);
    assert good(AfterLost(s, c, hqc, honest, k), k);
  }

  /** After any number of lost rounds, asking everyone to vote for a block on top of `hqc` with the last
      timeout certificate, and for its child, shows the block to be committed. */
  lemma {:induction false} CommitsAfterLostRounds(s: Setup, c: Cluster, hqc: Cert, b: Block, child: Block,
      honest: set<nat>, k: nat)
    requires Lost(s, c, hqc, honest, 0) && k > 0
    requires b.Node? && b.parent == hqc.block && b.epoch == hqc.block.epoch && b.round == hqc.block.Round() + k + 1
    requires child.Node? && child.parent == b && child.epoch == b.epoch && child.round == b.round + 1
    ensures var n, tc := |c.sites|, TcAfter(hqc.block, honest, k);
      var votes := VoteAll(n, b, hqc.signers, tc, hqc) + VoteAll(n, child, honest, None, hqc);
      ShownCommitted(s, ActAll(s, AfterLost(s, c, hqc, honest, k), votes, n + n).rel, b)
  {
    RoundsMayBeLost(s, c, hqc, honest, k);
    var mid := AfterLost(s, c, hqc, honest, k);
    forall v | 0 <= v < |mid.sites| && v !in s.byzantine ensures Eager(mid.sites[v], b) {
      assert HasLeft(mid, v, hqc.block.Round() + k, hqc.block);
    }
    TwoRoundsShow(s, mid, b, hqc.signers, TcAfter(hqc.block, honest, k), hqc, child, honest);
  }

  // ---------- from start-up ----------

  lemma {:induction false} AllEnter(s: Setup, n: nat, start: nat, epoch: nat, k: nat)
    requires k <= n && start <= epoch
    ensures var c := ActAll(s, Booted(n, start), EnterAll(n, epoch), k);
      && |c.sites| == n && c.rel == Released({}, {}, {})
      && (forall v :: 0 <= v < k && v !in s.byzantine ==> c.sites[v] == Site(Fresh(epoch).data, true, Some(epoch)))
      && (forall v :: k <= v < n ==> c.sites[v] == Fresh(start))
  {
    if k > 0 { AllEnter(s, n, start, epoch, k - 1); }
  }

  /** Everyone enters the epoch, votes for `b` and for `child`. */
  function FromStart(n: nat, epoch: nat, b: Block, child: Block, honest: set<nat>): seq<Action> {
    var none := Cert(Genesis(epoch), {});
    EnterAll(n, epoch) + (VoteAll(n, b, {}, None, none) + VoteAll(n, child, honest, None, none))
  }

  lemma {:induction false} StartCommits(s: Setup, n: nat, start: nat, epoch: nat, b: Block, child: Block,
      honest: set<nat>)
    requires start <= epoch && Quorate(s, n, epoch, honest)
    requires b.Node? && b.epoch == epoch && b.round == 1 && b.parent == Genesis(epoch)
    requires child.Node? && child.epoch == epoch && child.round == 2 && child.parent == b
    ensures var actions := FromStart(n, epoch, b, child, honest);
      ShownCommitted(s, ActAll(s, Booted(n, start), actions, |actions|).rel, b)
  {
    var none := Cert(Genesis(epoch), {});
    var votes := VoteAll(n, b, {}, None, none) + VoteAll(n, child, honest, None, none);
    AllEnter(s, n, start, epoch, n);
    var c := ActAll(s, Booted(n, start), EnterAll(n, epoch), n);
    ActAllAppend(s, Booted(n, start), EnterAll(n, epoch), votes, n + n);
    TwoRoundsShow(s, c, b, {}, None, none, child, honest);
  }

  /** The objects themselves, from start-up: everyone enters the epoch, votes for a first block and for
      its child, and the first block is committed. */
  method CommitsFromStart(s: Setup, n: nat, start: nat, epoch: nat, first: nat, second: nat, honest: set<nat>)
    returns (rel: Released, b: Block)
    requires start <= epoch && Quorate(s, n, epoch, honest)
    ensures b == Node(epoch, 1, Genesis(epoch), first) && ShownCommitted(s, rel, b)
  {
    b := Node(epoch, 1, Genesis(epoch), first);
    var child := Node(epoch, 2, b, second);
    rel := Run(s, n, start, FromStart(n, epoch, b, child, honest));
    StartCommits(s, n, start, epoch, b, child, honest);
  }
}
