/** The components as they run: one safety-rules object per honest validator, writes that fail either
    way, restarts, and only what a signing call returns on the network. */
module Replicas {
  import opened Wrappers
  import opened Quorums
  import opened SafetyRules
  import opened Agreement

  /** A quorum certificate: the certified block and who signed. */
  datatype Cert = Cert(block: Block, signers: set<nat>)

  /** Everything honest validators have released. */
  datatype Released = Released(votes: set<Vote>, orders: set<Vote>, timeouts: set<Timeout>)

  /** The signature checks, against the validator set of epoch `at` and what is on the network; faulty
      validators may have signed anything.  A genesis block carries no signatures. */
  predicate CertChecks(s: Setup, at: nat, rel: Released, c: Cert) {
    || c.block.Genesis?
    || (IsQuorum(s.powers(at), c.signers) && AllSigned(s.byzantine, rel.votes, c.signers, c.block))
  }

  predicate TcChecks(s: Setup, at: nat, rel: Released, tc: TimeoutCert, hqc: Cert) {
    && IsQuorum(s.powers(at), tc.signers.Keys)
    && tc.hqc < tc.round && HighestOf(tc.signers, tc.hqc)
    && hqc.block.Round() == tc.hqc && CertChecks(s, at, rel, hqc)
    && forall v :: v in tc.signers && v !in s.byzantine ==>
         Timeout(v, tc.epoch, tc.round, tc.signers[v]) in rel.timeouts
  }

  predicate MaybeTcChecks(s: Setup, at: nat, rel: Released, tc: Option<TimeoutCert>, hqc: Cert) {
    tc.Some? ==> TcChecks(s, at, rel, tc.value, hqc)
  }

  // ---------- actions ----------

  /** Every public call of every honest validator, with the certificates that come along, any write
      outcome, and restarts at any time. */
  datatype Action =
    | SignVote(v: nat, block: Block, qc: set<nat>, tc: Option<TimeoutCert>, tcQc: Cert, write: WriteOutcome)
    | SignTimeout(v: nat, epoch: nat, round: nat, hqc: Cert, tc: Option<TimeoutCert>, tcQc: Cert,
        write: WriteOutcome)
    | SignOrderVote(v: nat, block: Block, qc: set<nat>, write: WriteOutcome)
    | Initialise(v: nat, epoch: nat, hasKey: bool, write: WriteOutcome)
    | Crash(v: nat)

  /** A validator without its cache: the data on disk, whether it may sign, and the epoch of the
      validator set it checks certificates against. */
  datatype Site = Site(data: SafetyData, ready: bool, verifier: Option<nat>)

  /** A site, and the network, after a call. */
  datatype Acted = Acted(site: Site, rel: Released)

  function OnVote(s: Setup, rel: Released, x: Site, a: Action): Acted
    requires a.SignVote?
  {
    if !x.ready || x.verifier.None? then Acted(x, rel)
    else
      var r := VoteStep(x.data, a.block, a.tc, CertChecks(s, x.verifier.value, rel, Cert(a.block.Parent(), a.qc)),
        MaybeTcChecks(s, x.verifier.value, rel, a.tc, a.tcQc));
      if r.Err? then Acted(x, rel)
      else Acted(
        if a.write.Lost? then x else x.(data := r.value.data),
        if r.value.write && !a.write.Written? then rel
        else rel.(votes := rel.votes + {Vote(a.v, r.value.block)}))
  }

  function OnTimeout(s: Setup, rel: Released, x: Site, a: Action): Acted
    requires a.SignTimeout?
  {
    if !x.ready || x.verifier.None? then Acted(x, rel)
    else
      var r := TimeoutStep(x.data, a.epoch, a.round, a.hqc.block, a.tc, CertChecks(s, x.verifier.value, rel, a.hqc),
        MaybeTcChecks(s, x.verifier.value, rel, a.tc, a.tcQc));
      if r.Err? then Acted(x, rel)
      else Acted(
        if a.write.Lost? then x else x.(data := r.value),
        if !a.write.Written? then rel
        else rel.(timeouts := rel.timeouts + {Timeout(a.v, a.epoch, a.round, a.hqc.block.Round())}))
  }

  function OnOrderVote(s: Setup, rel: Released, x: Site, a: Action): Acted
    requires a.SignOrderVote?
  {
    if !x.ready || x.verifier.None? then Acted(x, rel)
    else
      var r := OrderVoteStep(x.data, a.block, CertChecks(s, x.verifier.value, rel, Cert(a.block, a.qc)));
      if r.Err? then Acted(x, rel)
      else Acted(
        if a.write.Lost? then x else x.(data := r.value),
        if !a.write.Written? then rel else rel.(orders := rel.orders + {Vote(a.v, a.block)}))
  }

  /** Does this initialisation get as far as the new verifier? */
  predicate Reaches(x: Site, a: Action) {
    a.Initialise? && (a.epoch == x.data.epoch || (a.epoch > x.data.epoch && a.write.Written?))
  }

  function OnLifecycle(x: Site, a: Action): Site
    requires a.Initialise? || a.Crash?
  {
    if a.Crash? then Site(x.data, false, None)
    else
      var data := if a.write.Lost? then x.data else InitializeStep(x.data, a.epoch).GetOr(x.data);
      if Reaches(x, a) then Site(data, a.hasKey, Some(a.epoch)) else Site(data, x.ready, x.verifier)
  }

  function OnAction(s: Setup, rel: Released, x: Site, a: Action): Acted {
    match a
    case SignVote(_, _, _, _, _, _) => OnVote(s, rel, x, a)
    case SignTimeout(_, _, _, _, _, _, _) => OnTimeout(s, rel, x, a)
    case SignOrderVote(_, _, _, _) => OnOrderVote(s, rel, x, a)
    case _ => Acted(OnLifecycle(x, a), rel)
  }

  /** All validators without their caches, and the network. */
  datatype Cluster = Cluster(sites: seq<Site>, rel: Released)

  /** Is the action one of a validator that runs the rules? */
  predicate Acts(s: Setup, c: Cluster, a: Action) { a.v < |c.sites| && a.v !in s.byzantine }

  /** What one action, or a sequence of them, comes to; faulty validators run no rules. */
  function Act(s: Setup, c: Cluster, a: Action): Cluster {
    if !Acts(s, c, a) then c
    else
      var x := OnAction(s, c.rel, c.sites[a.v], a);
      Cluster(c.sites[a.v := x.site], x.rel)
  }

  function ActAll(s: Setup, c: Cluster, actions: seq<Action>, n: nat): Cluster
    requires n <= |actions|
  {
    if n == 0 then c else Act(s, ActAll(s, c, actions, n - 1), actions[n - 1])
  }

  function Fresh(epoch: nat): Site { Site(SafetyData(epoch, 0, 0, 0, None, 0), false, None) }

  function Booted(n: nat, epoch: nat): Cluster { Cluster(seq(n, _ => Fresh(epoch)), Released({}, {}, {})) }

  // ---------- the components do what the actions say ----------

  ghost predicate Distinct(rules: seq<Rules>) {
    forall u, v :: 0 <= u < v < |rules| ==> rules[u] != rules[v]
  }

  ghost predicate IsCluster(rules: seq<Rules>, sites: seq<Site>)
    reads rules
  {
    && |rules| == |sites| && Distinct(rules)
    && forall v :: 0 <= v < |rules| ==> rules[v].Valid() && sites[v] == View(rules[v])
  }

  ghost function View(r: Rules): Site
    reads r
  {
    Site(r.stored, r.hasSigner, r.verifier)
  }

  method DoVote(s: Setup, r: Rules, a: Action, rel: Released) returns (rel': Released)
    requires a.SignVote? && r.Valid()
    modifies r
    ensures r.Valid() && Acted(View(r), rel') == OnVote(s, rel, old(View(r)), a)
  {
    var vote := r.ConstructAndSignVote(a.block, a.tc,
      (at: nat) => CertChecks(s, at, rel, Cert(a.block.Parent(), a.qc)),
      (at: nat) => MaybeTcChecks(s, at, rel, a.tc, a.tcQc), a.write);
    rel' := if vote.Ok? then rel.(votes := rel.votes + {Vote(a.v, vote.value)}) else rel;
  }

  method DoTimeout(s: Setup, r: Rules, a: Action, rel: Released) returns (rel': Released)
    requires a.SignTimeout? && r.Valid()
    modifies r
    ensures r.Valid() && Acted(View(r), rel') == OnTimeout(s, rel, old(View(r)), a)
  {
    var signed := r.SignTimeoutWithQc(a.epoch, a.round, a.hqc.block, a.tc,
      (at: nat) => CertChecks(s, at, rel, a.hqc),
      (at: nat) => MaybeTcChecks(s, at, rel, a.tc, a.tcQc), a.write);
    var t := Timeout(a.v, a.epoch, a.round, a.hqc.block.Round());
    rel' := if signed.Ok? then rel.(timeouts := rel.timeouts + {t}) else rel;
  }

  method DoOrderVote(s: Setup, r: Rules, a: Action, rel: Released) returns (rel': Released)
    requires a.SignOrderVote? && r.Valid()
    modifies r
    ensures r.Valid() && Acted(View(r), rel') == OnOrderVote(s, rel, old(View(r)), a)
  {
    var vote := r.ConstructAndSignOrderVote(a.block,
      (at: nat) => CertChecks(s, at, rel, Cert(a.block, a.qc)), a.write);
    rel' := if vote.Ok? then rel.(orders := rel.orders + {Vote(a.v, vote.value)}) else rel;
  }

  /** Entering an epoch, or losing everything that is not on disk. */
  method DoLifecycle(r: Rules, a: Action)
    requires (a.Initialise? || a.Crash?) && r.Valid()
    modifies r
    ensures r.Valid() && View(r) == OnLifecycle(old(View(r)), a)
  {
    if a.Initialise? {
      var _ := r.Initialize(a.epoch, a.hasKey, a.write);
    } else {
      r.Restart();
    }
  }

  method Do(s: Setup, r: Rules, a: Action, rel: Released) returns (rel': Released)
    requires r.Valid()
    modifies r
    ensures r.Valid() && Acted(View(r), rel') == OnAction(s, rel, old(View(r)), a)
  {
    match a {
      case SignVote(_, _, _, _, _, _) => rel' := DoVote(s, r, a, rel);
      case SignTimeout(_, _, _, _, _, _, _) => rel' := DoTimeout(s, r, a, rel);
      case SignOrderVote(_, _, _, _) => rel' := DoOrderVote(s, r, a, rel);
      case _ => DoLifecycle(r, a); rel' := rel;
    }
  }

  method Step(s: Setup, rules: seq<Rules>, a: Action, ghost c: Cluster, rel: Released) returns (rel': Released)
    requires IsCluster(rules, c.sites) && c.rel == rel
    modifies rules
    ensures IsCluster(rules, Act(s, c, a).sites) && Act(s, c, a).rel == rel'
  {
    rel' := rel;
    if a.v < |rules| && a.v !in s.byzantine { rel' := Do(s, rules[a.v], a, rel); }
  }

  method Boot(n: nat, epoch: nat) returns (rules: seq<Rules>)
    ensures fresh(rules) && IsCluster(rules, Booted(n, epoch).sites)
  {
    rules := [];
    for i := 0 to n
      invariant |rules| == i && fresh(rules) && Distinct(rules)
      invariant forall v :: 0 <= v < i ==> rules[v].Valid() && View(rules[v]) == Fresh(epoch)
    {
      var r := new Rules(epoch);
      rules := rules + [r];
    }
  }

  // ---------- the rules and the world ----------

  /** The released statements as a world without data. */
  ghost function AsWorld(rel: Released): World { World([], rel.votes, rel.orders, rel.timeouts) }

  ghost predicate Within(rel: Released, w: World) {
    rel.votes <= w.votes && rel.orders <= w.orders && rel.timeouts <= w.timeouts
  }

  /** What is on every honest validator's disk is the world's data, and what is released is in it. */
  ghost predicate Linked(s: Setup, c: Cluster, w: World) {
    && |c.sites| == |w.data| && Within(c.rel, w) && Agreement.Inv(s, w)
    && forall v :: 0 <= v < |c.sites| && v !in s.byzantine ==> c.sites[v].data == w.data[v]
  }

  predicate Signs(a: Action) { a.SignVote? || a.SignTimeout? || a.SignOrderVote? }

  /** The site may sign, but checks certificates against another epoch than the one its data is of. */
  predicate Mixed(x: Site) { x.ready && x.verifier != Some(x.data.epoch) }

  /** A timeout certificate that comes along is of the epoch of the call. */
  predicate TcInEpoch(a: Action) {
    && (a.SignVote? && a.tc.Some? ==> a.tc.value.epoch == a.block.epoch)
    && (a.SignTimeout? && a.tc.Some? ==> a.tc.value.epoch == a.epoch)
  }

  /** Can be told before the call from the verifier, the stored epoch and the certificate. */
  predicate Careful(s: Setup, c: Cluster, a: Action) {
    Acts(s, c, a) && Signs(a) ==> !Mixed(c.sites[a.v]) && TcInEpoch(a)
  }

  ghost predicate AllCareful(s: Setup, c: Cluster, actions: seq<Action>, n: nat)
    requires n <= |actions|
  {
    forall i :: 0 <= i < n ==> Careful(s, ActAll(s, c, actions, i), actions[i])
  }

  lemma CheckedIsCertified(s: Setup, at: nat, rel: Released, w: World, c: Cert)
    requires Within(rel, w) && CertChecks(s, at, rel, c)
    ensures CertifiedIn(s, w, at, c.block) && (c.block.epoch == at ==> Certified(s, w, c.block))
  {
    if c.block.Node? { assert AllSigned(s.byzantine, w.votes, c.signers, c.block); }
  }

  lemma CheckedIsValid(s: Setup, at: nat, rel: Released, w: World, tc: Option<TimeoutCert>, hqc: Cert)
    requires Within(rel, w) && MaybeTcChecks(s, at, rel, tc, hqc) && (tc.Some? ==> tc.value.epoch == at)
    ensures ValidMaybeTc(s, w, at, tc)
  {
    if tc.Some? {
      CheckedIsCertified(s, at, rel, w, hqc);
      assert RoundCertified(s, w, at, tc.value.hqc);
    }
  }

  /** What the checks let a vote call do is what the world lets it do. */
  lemma VoteAllowed(s: Setup, rel: Released, w: World, d: SafetyData, a: Action)
    requires Within(rel, w) && a.SignVote? && TcInEpoch(a)
    requires VoteStep(d, a.block, a.tc, CertChecks(s, d.epoch, rel, Cert(a.block.Parent(), a.qc)),
      MaybeTcChecks(s, d.epoch, rel, a.tc, a.tcQc)).Ok?
    ensures VoteStep(d, a.block, a.tc, CertChecks(s, d.epoch, rel, Cert(a.block.Parent(), a.qc)),
        MaybeTcChecks(s, d.epoch, rel, a.tc, a.tcQc))
      == VoteStep(d, a.block, a.tc, Certified(s, w, a.block.Parent()), ValidMaybeTc(s, w, d.epoch, a.tc))
  {
    CheckedIsCertified(s, d.epoch, rel, w, Cert(a.block.Parent(), a.qc));
    if a.tc.Some? { CheckedIsValid(s, d.epoch, rel, w, a.tc, a.tcQc); }
  }

  /** One validator's disk and the network changed as the world did. */
  lemma StillLinked(s: Setup, c: Cluster, w: World, v: nat, x: Site, rel: Released, w': World)
    requires Linked(s, c, w) && v < |c.sites| && Agreement.Inv(s, w') && Within(rel, w')
    requires w'.data == w.data[v := x.data]
    ensures Linked(s, Cluster(c.sites[v := x], rel), w')
  {
  }

  /** A vote call is one step of the rules or none, and a vote that left it is in the world. */
  lemma VoteCall(s: Setup, c: Cluster, w: World, a: Action) returns (w': World)
    requires Linked(s, c, w) && a.SignVote? && Acts(s, c, a) && Careful(s, c, a)
    ensures w' == w || w' == Apply(s, w, CastVote(a.v, a.block, a.tc))
    ensures Linked(s, Act(s, c, a), w')
  {
    var x := c.sites[a.v];
    w' := w;
    if x.ready {
      var r := VoteStep(x.data, a.block, a.tc, CertChecks(s, x.data.epoch, c.rel, Cert(a.block.Parent(), a.qc)),
        MaybeTcChecks(s, x.data.epoch, c.rel, a.tc, a.tcQc));
      if r.Ok? && !(a.write.Lost? && r.value.write) {
        VoteAllowed(s, c.rel, w, x.data, a);
        w' := Apply(s, w, CastVote(a.v, a.block, a.tc));
        StepKeeps(s, w, CastVote(a.v, a.block, a.tc));
        assert w'.data == w.data[a.v := r.value.data] && w'.votes == w.votes + {Vote(a.v, r.value.block)};
        var acted := OnVote(s, c.rel, x, a);
        assert acted.site.data == r.value.data && acted.rel.votes <= w'.votes;
        StillLinked(s, c, w, a.v, acted.site, acted.rel, w');
      }
    }
  }

  lemma TimeoutCall(s: Setup, c: Cluster, w: World, a: Action) returns (w': World)
    requires Linked(s, c, w) && a.SignTimeout? && Acts(s, c, a) && Careful(s, c, a)
    ensures w' == w || w' == Apply(s, w, CastTimeout(a.v, a.round, a.hqc.block, a.tc))
    ensures Linked(s, Act(s, c, a), w')
  {
    var x, b := c.sites[a.v], a.hqc.block;
    w' := w;
    if x.ready {
      var e := x.verifier.value;
      var qcOk, tcOk := CertChecks(s, e, c.rel, a.hqc), MaybeTcChecks(s, e, c.rel, a.tc, a.tcQc);
      var r := TimeoutStep(x.data, a.epoch, a.round, b, a.tc, qcOk, tcOk);
      if r.Ok? && !a.write.Lost? {
        CheckedIsCertified(s, e, c.rel, w, a.hqc);
        if a.tc.Some? { CheckedIsValid(s, e, c.rel, w, a.tc, a.tcQc); }
        assert r == TimeoutStep(x.data, e, a.round, b, a.tc, CertifiedIn(s, w, e, b), ValidMaybeTc(s, w, e, a.tc));
        w' := Apply(s, w, CastTimeout(a.v, a.round, b, a.tc));
        StepKeeps(s, w, CastTimeout(a.v, a.round, b, a.tc));
      }
    }
  }

  lemma OrderVoteCall(s: Setup, c: Cluster, w: World, a: Action) returns (w': World)
    requires Linked(s, c, w) && a.SignOrderVote? && Acts(s, c, a) && Careful(s, c, a)
    ensures w' == w || w' == Apply(s, w, CastOrderVote(a.v, a.block))
    ensures Linked(s, Act(s, c, a), w')
  {
    var x := c.sites[a.v];
    w' := w;
    if x.ready {
      var r := OrderVoteStep(x.data, a.block, CertChecks(s, x.verifier.value, c.rel, Cert(a.block, a.qc)));
      if r.Ok? && !a.write.Lost? {
        CheckedIsCertified(s, x.verifier.value, c.rel, w, Cert(a.block, a.qc));
        w' := Apply(s, w, CastOrderVote(a.v, a.block));
        StepKeeps(s, w, CastOrderVote(a.v, a.block));
      }
    }
  }

  lemma LifecycleCall(s: Setup, c: Cluster, w: World, a: Action) returns (w': World)
    requires Linked(s, c, w) && (a.Initialise? || a.Crash?) && Acts(s, c, a)
    ensures w' == w || (a.Initialise? && w' == Apply(s, w, Enter(a.v, a.epoch)))
    ensures Linked(s, Act(s, c, a), w')
  {
    w' := w;
    if a.Initialise? && !a.write.Lost? {
      w' := Apply(s, w, Enter(a.v, a.epoch));
      StepKeeps(s, w, Enter(a.v, a.epoch));
    }
  }

  lemma ActKeeps(s: Setup, c: Cluster, w: World, a: Action) returns (w': World)
    requires Linked(s, c, w) && Careful(s, c, a)
    ensures Linked(s, Act(s, c, a), w')
  {
    w' := w;
    if Acts(s, c, a) {
      match a
      case SignVote(_, _, _, _, _, _) => w' := VoteCall(s, c, w, a);
      case SignTimeout(_, _, _, _, _, _, _) => w' := TimeoutCall(s, c, w, a);
      case SignOrderVote(_, _, _, _) => w' := OrderVoteCall(s, c, w, a);
      case _ => w' := LifecycleCall(s, c, w, a);
    }
  }

  lemma {:induction false} RunLinked(s: Setup, n: nat, epoch: nat, actions: seq<Action>, k: nat) returns (w: World)
    requires k <= |actions| && AllCareful(s, Booted(n, epoch), actions, k)
    ensures Linked(s, ActAll(s, Booted(n, epoch), actions, k), w)
  {
    if k == 0 {
      w := World(seq(n, _ => Fresh(epoch).data), {}, {}, {});
    } else {
      w := RunLinked(s, n, epoch, actions, k - 1);
      assert Careful(s, ActAll(s, Booted(n, epoch), actions, k - 1), actions[k - 1]);
      w := ActKeeps(s, ActAll(s, Booted(n, epoch), actions, k - 1), w, actions[k - 1]);
    }
  }

  // ---------- agreement ----------

  /** Blocks the network shows to be committed. */
  ghost predicate ShownCommitted(s: Setup, rel: Released, b: Block) { Committed(s, AsWorld(rel), b) }

  lemma ShownIsCommitted(s: Setup, rel: Released, w: World, b: Block)
    requires Within(rel, w) && ShownCommitted(s, rel, b)
    ensures Committed(s, w, b)
  {
    if HasQuorum(s, rel.orders, b) {
      var q: set<nat> :| IsQuorum(s.powers(b.epoch), q) && AllSigned(s.byzantine, rel.orders, q, b);
      assert AllSigned(s.byzantine, w.orders, q, b);
    } else {
      var child :| TwoChain(s, AsWorld(rel), b, child);
      var q: set<nat> :| IsQuorum(s.powers(child.epoch), q) && AllSigned(s.byzantine, rel.votes, q, child);
      assert AllSigned(s.byzantine, w.votes, q, child);
      assert TwoChain(s, w, b, child);
    }
  }

  /** Nothing that was released is ever taken back, so what is shown committed stays so. */
  lemma {:induction false} StaysShown(s: Setup, c: Cluster, actions: seq<Action>, m: nat, n: nat, b: Block)
    requires m <= n <= |actions| && ShownCommitted(s, ActAll(s, c, actions, m).rel, b)
    ensures ShownCommitted(s, ActAll(s, c, actions, n).rel, b)
    decreases n
  {
    if m < n {
      StaysShown(s, c, actions, m, n - 1, b);
      ShownIsCommitted(s, ActAll(s, c, actions, n - 1).rel, AsWorld(ActAll(s, c, actions, n).rel), b);
    }
  }

  ghost predicate OneBranchIfSafe(s: Setup, b: Block, c: Block) {
    b.epoch == c.epoch && Tolerable(s.powers(b.epoch), s.byzantine) ==> Extends(c, b) || Extends(b, c)
  }

  /** Blocks shown to be committed at any two times of the run are on one branch. */
  ghost predicate Agrees(s: Setup, start: Cluster, actions: seq<Action>) {
    forall i, j, b, c | 0 <= i <= |actions| && 0 <= j <= |actions|
      && ShownCommitted(s, ActAll(s, start, actions, i).rel, b)
      && ShownCommitted(s, ActAll(s, start, actions, j).rel, c) :: OneBranchIfSafe(s, b, c)
  }

  /** A run in which nobody signs while mixed, or with a timeout certificate of another epoch, agrees. */
  lemma CarefulRunsAgree(s: Setup, n: nat, epoch: nat, actions: seq<Action>)
    requires AllCareful(s, Booted(n, epoch), actions, |actions|)
    ensures Agrees(s, Booted(n, epoch), actions)
  {
    var start := Booted(n, epoch);
    var w := RunLinked(s, n, epoch, actions, |actions|);
    forall i, j, b, c | 0 <= i <= |actions| && 0 <= j <= |actions|
      && ShownCommitted(s, ActAll(s, start, actions, i).rel, b)
      && ShownCommitted(s, ActAll(s, start, actions, j).rel, c)
      ensures OneBranchIfSafe(s, b, c)
    {
      StaysShown(s, start, actions, i, |actions|, b);
      StaysShown(s, start, actions, j, |actions|, c);
      OneBranch(s, ActAll(s, start, actions, |actions|).rel, w, b, c);
    }
  }

  lemma OneBranch(s: Setup, rel: Released, w: World, b: Block, c: Block)
    requires Within(rel, w) && Agreement.Inv(s, w) && ShownCommitted(s, rel, b) && ShownCommitted(s, rel, c)
    ensures OneBranchIfSafe(s, b, c)
  {
    if b.epoch == c.epoch && Tolerable(s.powers(b.epoch), s.byzantine) {
      ShownIsCommitted(s, rel, w, b);
      ShownIsCommitted(s, rel, w, c);
      CommittedBlocksAgree(s, w, b, c);
    }
  }

  /** In every run of the components, over any calls, write outcomes and restarts: what they release is
      what the rules without caches release; and if every signing call is careful, blocks shown to be
      committed at any two times are on one branch. */
  method Run(s: Setup, n: nat, epoch: nat, actions: seq<Action>) returns (rel: Released)
    ensures rel == ActAll(s, Booted(n, epoch), actions, |actions|).rel
    ensures AllCareful(s, Booted(n, epoch), actions, |actions|) ==> Agrees(s, Booted(n, epoch), actions)
  {
    var rules := Boot(n, epoch);
    rel := Released({}, {}, {});
    for i := 0 to |actions|
      invariant fresh(rules)
      invariant var c := ActAll(s, Booted(n, epoch), actions, i); IsCluster(rules, c.sites) && c.rel == rel
    {
      rel := Step(s, rules, actions[i], ActAll(s, Booted(n, epoch), actions, i), rel);
    }
    if AllCareful(s, Booted(n, epoch), actions, |actions|) { CarefulRunsAgree(s, n, epoch, actions); }
  }

  // ---------- when a validator is not careful ----------

  /** The verifier never runs ahead of the data. */
  predicate SiteOk(x: Site) {
    (x.ready ==> x.verifier.Some?) && (x.verifier.Some? ==> x.verifier.value <= x.data.epoch)
  }

  /** A site becomes mixed exactly when the write of a later epoch's data fails but reaches the disk, and
      stays so until an initialisation reaches its verifier or it restarts. */
  lemma MixedIff(s: Setup, rel: Released, x: Site, a: Action)
    requires SiteOk(x)
    ensures SiteOk(OnAction(s, rel, x, a).site)
    ensures Mixed(OnAction(s, rel, x, a).site) <==>
      || (Mixed(x) && !a.Crash? && !Reaches(x, a))
      || (x.ready && a.Initialise? && a.epoch > x.data.epoch && a.write.WrittenButFailed?)
  {
  }

  ghost predicate NoneMixed(s: Setup, c: Cluster) {
    forall v :: 0 <= v < |c.sites| && v !in s.byzantine ==> SiteOk(c.sites[v]) && !Mixed(c.sites[v])
  }

  lemma {:induction false} StaysUnmixed(s: Setup, n: nat, epoch: nat, actions: seq<Action>, k: nat)
    requires k <= |actions|
    requires forall i :: 0 <= i < k && actions[i].Initialise? ==> !actions[i].write.WrittenButFailed?
    ensures NoneMixed(s, ActAll(s, Booted(n, epoch), actions, k))
  {
    if k > 0 {
      StaysUnmixed(s, n, epoch, actions, k - 1);
      var c, a := ActAll(s, Booted(n, epoch), actions, k - 1), actions[k - 1];
      if Acts(s, c, a) { MixedIff(s, c.rel, c.sites[a.v], a); }
    }
  }

  /** So agreement holds whenever failed writes of a new epoch's data are lost. */
  lemma LostWritesAreCareful(s: Setup, n: nat, epoch: nat, actions: seq<Action>)
    requires forall i :: 0 <= i < |actions| && actions[i].Initialise? ==> !actions[i].write.WrittenButFailed?
    requires forall i :: 0 <= i < |actions| ==> TcInEpoch(actions[i])
    ensures AllCareful(s, Booted(n, epoch), actions, |actions|) && Agrees(s, Booted(n, epoch), actions)
  {
    forall i | 0 <= i < |actions| ensures Careful(s, ActAll(s, Booted(n, epoch), actions, i), actions[i]) {
      StaysUnmixed(s, n, epoch, actions, i);
    }
    CarefulRunsAgree(s, n, epoch, actions);
  }
}
