/** Agreement of the rules: whatever the faulty validators sign and whatever is delayed, lost or
    repeated, no two committed blocks of an epoch are on different branches. */
module Agreement {
  import opened Wrappers
  import opened Quorums
  import opened SafetyRules

  /** Who has how much power in which epoch, and which validators are faulty. */
  datatype Setup = Setup(powers: nat -> seq<nat>, byzantine: set<nat>)

  datatype Vote = Vote(author: nat, block: Block)

  datatype Timeout = Timeout(author: nat, epoch: nat, round: nat, hqc: nat)

  /** The persisted data of every validator, and every statement an honest validator has ever put its
      name under.  Faulty validators may have signed anything, so they are not listed. */
  datatype World = World(data: seq<SafetyData>, votes: set<Vote>, orders: set<Vote>, timeouts: set<Timeout>)

  // ---------- certificates ----------

  /** Every honest member of `q` has signed. */
  predicate AllSigned(byzantine: set<nat>, signed: set<Vote>, q: set<nat>, b: Block) {
    forall v :: v in q && v !in byzantine ==> Vote(v, b) in signed
  }

  ghost predicate HasQuorum(s: Setup, signed: set<Vote>, b: Block) {
    exists q: set<nat> :: IsQuorum(s.powers(b.epoch), q) && AllSigned(s.byzantine, signed, q, b)
  }

  /** A valid quorum certificate for `b` can be formed; the genesis block of an epoch needs none. */
  ghost predicate Certified(s: Setup, w: World, b: Block) {
    b.Genesis? || HasQuorum(s, w.votes, b)
  }

  /** The certificate a timeout carries is checked against the validators of the timeout's epoch; the
      block it certifies may be of another one. */
  ghost predicate CertifiedIn(s: Setup, w: World, epoch: nat, b: Block) {
    b.Genesis? || exists q: set<nat> :: IsQuorum(s.powers(epoch), q) && AllSigned(s.byzantine, w.votes, q, b)
  }

  /** A quorum signed timeouts of the round; the highest round they report is below it, is the one the
      certificate carries, and is certified. */
  ghost predicate ValidTc(s: Setup, w: World, tc: TimeoutCert) {
    && IsQuorum(s.powers(tc.epoch), tc.signers.Keys)
    && tc.hqc < tc.round && HighestOf(tc.signers, tc.hqc) && RoundCertified(s, w, tc.epoch, tc.hqc)
    && (forall v :: v in tc.signers && v !in s.byzantine ==>
        Timeout(v, tc.epoch, tc.round, tc.signers[v]) in w.timeouts)
  }

  predicate HighestOf(signers: map<nat, nat>, hqc: nat) {
    (forall v :: v in signers ==> signers[v] <= hqc) && exists v :: v in signers && signers[v] == hqc
  }

  ghost predicate RoundCertified(s: Setup, w: World, epoch: nat, round: nat) {
    exists b: Block :: b.Round() == round && CertifiedIn(s, w, epoch, b)
  }

  ghost predicate ValidMaybeTc(s: Setup, w: World, epoch: nat, tc: Option<TimeoutCert>) {
    tc.Some? ==> tc.value.epoch == epoch && ValidTc(s, w, tc.value)
  }

  // ---------- steps ----------

  datatype Step =
    | CastVote(v: nat, block: Block, tc: Option<TimeoutCert>)
    | CastTimeout(v: nat, round: nat, hqc: Block, tc: Option<TimeoutCert>)
    | CastOrderVote(v: nat, block: Block)
    | Enter(v: nat, epoch: nat)

  /** What an honest validator's persisted data and signatures become.  A statement counts from the
      moment its data is on disk, whether or not it is sent before the next crash. */
  ghost function Apply(s: Setup, w: World, step: Step): World {
    if step.v >= |w.data| || step.v in s.byzantine then w
    else
      var v, d := step.v, w.data[step.v];
      match step
      case CastVote(_, b, tc) =>
        (match VoteStep(d, b, tc, Certified(s, w, b.Parent()), ValidMaybeTc(s, w, d.epoch, tc))
          case Ok(x) => w.(data := w.data[v := x.data], votes := w.votes + {Vote(v, x.block)})
          case Err(_) => w)
      case CastTimeout(_, round, hqc, tc) =>
        (match TimeoutStep(d, d.epoch, round, hqc, tc, CertifiedIn(s, w, d.epoch, hqc), ValidMaybeTc(s, w, d.epoch, tc))
          case Ok(x) => w.(data := w.data[v := x], timeouts := w.timeouts + {Timeout(v, d.epoch, round, hqc.Round())})
          case Err(_) => w)
      case CastOrderVote(_, b) =>
        (match OrderVoteStep(d, b, Certified(s, w, b))
          case Ok(x) => w.(data := w.data[v := x], orders := w.orders + {Vote(v, b)})
          case Err(_) => w)
      case Enter(_, e) =>
        (match InitializeStep(d, e)
          case Some(x) => w.(data := w.data[v := x])
          case None => w)
  }

  // ---------- invariant ----------

  /** Why an honest validator was allowed to vote for `b`. */
  ghost predicate Justified(s: Setup, w: World, b: Block) {
    && WellFormedProposal(b) && Certified(s, w, b.parent)
    && (b.round == b.parent.Round() + 1
        || exists tc ::
             ValidTc(s, w, tc) && tc.epoch == b.epoch && tc.round + 1 == b.round && tc.hqc <= b.parent.Round())
  }

  /** The persisted data covers the vote: it can never be contradicted later. */
  predicate VoteCovered(d: SafetyData, b: Block) {
    b.epoch <= d.epoch && (b.epoch == d.epoch ==> b.Round() <= d.lastVoted && b.Parent().Round() <= d.oneChain)
  }

  predicate OrderCovered(d: SafetyData, b: Block) {
    b.epoch <= d.epoch && (b.epoch == d.epoch ==> b.Round() <= d.oneChain)
  }

  predicate TimeoutCovered(d: SafetyData, t: Timeout) {
    t.epoch <= d.epoch && (t.epoch == d.epoch ==> t.round <= d.lastVoted && t.round <= d.highestTimeout)
  }

  /** A timeout at or after a vote reports at least the vote's parent round ... */
  predicate VoteThenTimeout(x: Vote, t: Timeout) {
    x.author == t.author && x.block.epoch == t.epoch && x.block.Round() <= t.round ==> x.block.Parent().Round() <= t.hqc
  }

  /** ... and at or after an order vote at least the ordered round. */
  predicate OrderThenTimeout(x: Vote, t: Timeout) {
    x.author == t.author && x.block.epoch == t.epoch && x.block.Round() <= t.round ==> x.block.Round() <= t.hqc
  }

  predicate SameRoundSameBlock(x: Vote, y: Vote) {
    x.author == y.author && x.block.epoch == y.block.epoch && x.block.Round() == y.block.Round() ==> x == y
  }

  ghost predicate VotesOk(s: Setup, w: World) {
    && (forall x :: x in w.votes ==>
        x.author < |w.data| && Justified(s, w, x.block) && VoteCovered(w.data[x.author], x.block))
    && (forall x, y :: x in w.votes && y in w.votes ==> SameRoundSameBlock(x, y))
  }

  ghost predicate OrdersOk(s: Setup, w: World) {
    forall x :: x in w.orders ==>
      x.author < |w.data| && Certified(s, w, x.block) && OrderCovered(w.data[x.author], x.block)
  }

  ghost predicate TimeoutsOk(w: World) {
    && (forall t :: t in w.timeouts ==> t.author < |w.data| && TimeoutCovered(w.data[t.author], t))
    && (forall x, t :: x in w.votes && t in w.timeouts ==> VoteThenTimeout(x, t))
    && (forall x, t :: x in w.orders && t in w.timeouts ==> OrderThenTimeout(x, t))
  }

  ghost predicate LastVotesOk(w: World) {
    forall v :: 0 <= v < |w.data| && w.data[v].lastVote.Some? ==> Vote(v, w.data[v].lastVote.value) in w.votes
  }

  ghost predicate Inv(s: Setup, w: World) {
    VotesOk(s, w) && OrdersOk(s, w) && TimeoutsOk(w) && LastVotesOk(w)
  }

  // ---------- certificates only accumulate ----------

  ghost predicate Grew(w: World, w': World) {
    w.votes <= w'.votes && w.orders <= w'.orders && w.timeouts <= w'.timeouts && |w.data| == |w'.data|
  }

  lemma CertifiedStays(s: Setup, w: World, w': World, b: Block)
    requires Grew(w, w') && Certified(s, w, b)
    ensures Certified(s, w', b)
  {
  }

  lemma JustifiedStays(s: Setup, w: World, w': World, b: Block)
    requires Grew(w, w') && Justified(s, w, b)
    ensures Justified(s, w', b)
  {
  }

  // ---------- every step keeps the invariant ----------

  predicate DataGrew(d: SafetyData, d': SafetyData) {
    || d.epoch < d'.epoch
    || (&& d.epoch == d'.epoch && d.lastVoted <= d'.lastVoted
        && d.oneChain <= d'.oneChain && d.highestTimeout <= d'.highestTimeout)
  }

  /** Old statements stay covered, so only the new one needs a look. */
  lemma OldStatementsStay(s: Setup, w: World, w': World, v: nat, d': SafetyData)
    requires Inv(s, w) && v < |w.data| && w'.data == w.data[v := d'] && Grew(w, w') && DataGrew(w.data[v], d')
    ensures forall x :: x in w.votes ==>
      x.author < |w'.data| && Justified(s, w', x.block) && VoteCovered(w'.data[x.author], x.block)
    ensures forall x :: x in w.orders ==>
      x.author < |w'.data| && Certified(s, w', x.block) && OrderCovered(w'.data[x.author], x.block)
    ensures forall t :: t in w.timeouts ==> t.author < |w'.data| && TimeoutCovered(w'.data[t.author], t)
  {
  }

  lemma AllowedIsJustified(s: Setup, w: World, d: SafetyData, b: Block, tc: Option<TimeoutCert>)
    requires b.epoch == d.epoch && WellFormedProposal(b) && Certified(s, w, b.parent)
    requires ValidMaybeTc(s, w, d.epoch, tc) && SafeToVote(b, tc)
    ensures Justified(s, w, b)
  {
  }

  /** A new vote in a round beyond everything its author has done contradicts nothing. */
  lemma NewVoteFits(s: Setup, w: World, w': World, v: nat, d': SafetyData, b: Block)
    requires Inv(s, w) && v < |w.data| && DataGrew(w.data[v], d') && Justified(s, w, b)
    requires b.epoch == w.data[v].epoch && w.data[v].lastVoted < b.round
    requires w' == w.(data := w.data[v := d'], votes := w.votes + {Vote(v, b)})
    requires VoteCovered(d', b) && d'.lastVote == Some(b)
    ensures Inv(s, w')
  {
    OldStatementsStay(s, w, w', v, d');
    JustifiedStays(s, w, w', b);
    forall x | x in w.votes ensures SameRoundSameBlock(x, Vote(v, b)) && SameRoundSameBlock(Vote(v, b), x) {
      assert VoteCovered(w.data[x.author], x.block);
    }
    forall t | t in w.timeouts ensures VoteThenTimeout(Vote(v, b), t) { assert TimeoutCovered(w.data[t.author], t); }
  }

  lemma VoteKeeps(s: Setup, w: World, v: nat, b: Block, tc: Option<TimeoutCert>)
    requires Inv(s, w) && v < |w.data| && v !in s.byzantine
    ensures Inv(s, Apply(s, w, CastVote(v, b, tc)))
  {
    var d := w.data[v];
    var r := VoteStep(d, b, tc, Certified(s, w, b.Parent()), ValidMaybeTc(s, w, d.epoch, tc));
    var w' := Apply(s, w, CastVote(v, b, tc));
    if r.Ok? && r.value.write {
      AllowedIsJustified(s, w, d, b, tc);
      NewVoteFits(s, w, w', v, r.value.data, b);
    } else {
      NothingNew(s, w, v, b, tc);
    }
  }

  /** A vote that was given before is given again, and changes nothing. */
  lemma NothingNew(s: Setup, w: World, v: nat, b: Block, tc: Option<TimeoutCert>)
    requires LastVotesOk(w) && v < |w.data| && v !in s.byzantine
    requires var d := w.data[v];
      var r := VoteStep(d, b, tc, Certified(s, w, b.Parent()), ValidMaybeTc(s, w, d.epoch, tc));
      r.Ok? ==> !r.value.write
    ensures Apply(s, w, CastVote(v, b, tc)) == w
  {
  }

  lemma TimeoutKeeps(s: Setup, w: World, v: nat, round: nat, hqc: Block, tc: Option<TimeoutCert>)
    requires Inv(s, w) && v < |w.data| && v !in s.byzantine
    ensures Inv(s, Apply(s, w, CastTimeout(v, round, hqc, tc)))
  {
    var d := w.data[v];
    var r := TimeoutStep(d, d.epoch, round, hqc, tc, CertifiedIn(s, w, d.epoch, hqc), ValidMaybeTc(s, w, d.epoch, tc));
    var w' := Apply(s, w, CastTimeout(v, round, hqc, tc));
    if r.Ok? {
      OldStatementsStay(s, w, w', v, r.value);
      var t := Timeout(v, d.epoch, round, hqc.Round());
      forall x | x in w.votes ensures VoteThenTimeout(x, t) { assert VoteCovered(w.data[x.author], x.block); }
      forall x | x in w.orders ensures OrderThenTimeout(x, t) { assert OrderCovered(w.data[x.author], x.block); }
    }
  }

  lemma OrderVoteKeeps(s: Setup, w: World, v: nat, b: Block)
    requires Inv(s, w) && v < |w.data| && v !in s.byzantine
    ensures Inv(s, Apply(s, w, CastOrderVote(v, b)))
  {
    var d := w.data[v];
    var r := OrderVoteStep(d, b, Certified(s, w, b));
    var w' := Apply(s, w, CastOrderVote(v, b));
    if r.Ok? {
      OldStatementsStay(s, w, w', v, r.value);
      CertifiedStays(s, w, w', b);
      forall t | t in w.timeouts ensures OrderThenTimeout(Vote(v, b), t) { assert TimeoutCovered(w.data[t.author], t); }
    }
  }

  lemma EnterKeeps(s: Setup, w: World, v: nat, e: nat)
    requires Inv(s, w) && v < |w.data| && v !in s.byzantine
    ensures Inv(s, Apply(s, w, Enter(v, e)))
  {
    var d := w.data[v];
    var w' := Apply(s, w, Enter(v, e));
    if InitializeStep(d, e).Some? { OldStatementsStay(s, w, w', v, InitializeStep(d, e).value); }
  }

  lemma StepKeeps(s: Setup, w: World, step: Step)
    requires Inv(s, w)
    ensures Inv(s, Apply(s, w, step))
  {
    if step.v < |w.data| && step.v !in s.byzantine {
      match step
      case CastVote(v, b, tc) => VoteKeeps(s, w, v, b, tc);
      case CastTimeout(v, round, hqc, tc) => TimeoutKeeps(s, w, v, round, hqc, tc);
      case CastOrderVote(v, b) => OrderVoteKeeps(s, w, v, b);
      case Enter(v, e) => EnterKeeps(s, w, v, e);
    }
  }

  // ---------- committed blocks ----------

  ghost predicate Extends(c: Block, b: Block) {
    c == b || (c.Node? && Extends(c.parent, b))
  }

  /** The 2-chain rule: a certified child in the very next round. */
  ghost predicate TwoChain(s: Setup, w: World, b: Block, child: Block) {
    child.Node? && child.parent == b && child.round == b.Round() + 1 && child.epoch == b.epoch && Certified(s, w, child)
  }

  ghost predicate Committed(s: Setup, w: World, b: Block) {
    (exists child :: TwoChain(s, w, b, child)) || HasQuorum(s, w.orders, b)
  }

  lemma HonestSigner(s: Setup, signed: set<Vote>, b: Block) returns (v: nat)
    requires Tolerable(s.powers(b.epoch), s.byzantine) && HasQuorum(s, signed, b)
    ensures Vote(v, b) in signed
  {
    var q: set<nat> :| IsQuorum(s.powers(b.epoch), q) && AllSigned(s.byzantine, signed, q, b);
    v := HonestOverlap(s.powers(b.epoch), s.byzantine, q, q);
  }

  lemma CertifiedIsJustified(s: Setup, w: World, b: Block)
    requires Inv(s, w) && Tolerable(s.powers(b.epoch), s.byzantine) && Certified(s, w, b) && b.Node?
    ensures Justified(s, w, b)
  {
    var v := HonestSigner(s, w.votes, b);
    assert Vote(v, b).block == b;
  }

  /** One certified block per round. */
  lemma UniqueInRound(s: Setup, w: World, b: Block, c: Block)
    requires Inv(s, w) && Tolerable(s.powers(b.epoch), s.byzantine)
    requires Certified(s, w, b) && Certified(s, w, c) && b.epoch == c.epoch && b.Round() == c.Round()
    ensures b == c
  {
    if b.Node? { CertifiedIsJustified(s, w, b); }
    if c.Node? { CertifiedIsJustified(s, w, c); }
    if b.Node? && c.Node? {
      var p: set<nat> :| IsQuorum(s.powers(b.epoch), p) && AllSigned(s.byzantine, w.votes, p, b);
      var q: set<nat> :| IsQuorum(s.powers(c.epoch), q) && AllSigned(s.byzantine, w.votes, q, c);
      var v := HonestOverlap(s.powers(b.epoch), s.byzantine, p, q);
      assert SameRoundSameBlock(Vote(v, b), Vote(v, c));
    }
  }

  /** No honest member of `q` times out at round `from` or later without reporting `b`'s round. */
  ghost predicate Locked(s: Setup, w: World, b: Block, from: nat, q: set<nat>) {
    && IsQuorum(s.powers(b.epoch), q)
    && forall t | t in w.timeouts && t.author in q && t.author !in s.byzantine ::
         t.epoch == b.epoch && t.round >= from ==> t.hqc >= b.Round()
  }

  lemma TwoChainLocks(s: Setup, w: World, b: Block, child: Block) returns (q: set<nat>)
    requires Inv(s, w) && TwoChain(s, w, b, child)
    ensures Locked(s, w, b, b.Round() + 1, q)
  {
    q :| IsQuorum(s.powers(child.epoch), q) && AllSigned(s.byzantine, w.votes, q, child);
    forall t | t in w.timeouts && t.author in q && t.author !in s.byzantine
      && t.epoch == b.epoch && t.round >= b.Round() + 1
      ensures t.hqc >= b.Round()
    {
      assert VoteThenTimeout(Vote(t.author, child), t);
    }
  }

  lemma OrderVotesLock(s: Setup, w: World, b: Block) returns (q: set<nat>)
    requires Inv(s, w) && HasQuorum(s, w.orders, b)
    ensures Locked(s, w, b, b.Round(), q)
  {
    q :| IsQuorum(s.powers(b.epoch), q) && AllSigned(s.byzantine, w.orders, q, b);
    forall t | t in w.timeouts && t.author in q && t.author !in s.byzantine
      && t.epoch == b.epoch && t.round >= b.Round()
      ensures t.hqc >= b.Round()
    {
      assert OrderThenTimeout(Vote(t.author, b), t);
    }
  }

  /** A certified block beyond the lock has a certified parent at or above the locked round. */
  lemma ParentAbove(s: Setup, w: World, b: Block, from: nat, q: set<nat>, c: Block)
    requires Inv(s, w) && Tolerable(s.powers(b.epoch), s.byzantine) && Locked(s, w, b, from, q)
    requires c.Node? && Certified(s, w, c) && c.epoch == b.epoch && c.round > from && c.round > b.Round()
    ensures WellFormedProposal(c) && Certified(s, w, c.parent) && c.parent.Round() >= b.Round()
  {
    CertifiedIsJustified(s, w, c);
    if c.round != c.parent.Round() + 1 {
      var tc :| ValidTc(s, w, tc) && tc.epoch == c.epoch && tc.round + 1 == c.round && tc.hqc <= c.parent.Round();
      var v := HonestOverlap(s.powers(b.epoch), s.byzantine, tc.signers.Keys, q);
      assert v in tc.signers;
      assert Timeout(v, tc.epoch, tc.round, tc.signers[v]) in w.timeouts;
    }
  }

  /** Every certified block at or above the round of a committed block extends it. */
  lemma {:induction false} CertifiedExtendsCommitted(s: Setup, w: World, b: Block, c: Block)
    requires Inv(s, w) && Tolerable(s.powers(b.epoch), s.byzantine)
    requires Committed(s, w, b) && Certified(s, w, b)
    requires Certified(s, w, c) && c.epoch == b.epoch && c.Round() >= b.Round()
    ensures Extends(c, b)
    decreases c
  {
    if c.Round() == b.Round() {
      UniqueInRound(s, w, b, c);
    } else if HasQuorum(s, w.orders, b) {
      var q := OrderVotesLock(s, w, b);
      ParentAbove(s, w, b, b.Round(), q, c);
      CertifiedExtendsCommitted(s, w, b, c.parent);
    } else {
      var child :| TwoChain(s, w, b, child);
      if c.Round() == child.round {
        UniqueInRound(s, w, child, c);
        assert Extends(c.parent, b);
      } else {
        var q := TwoChainLocks(s, w, b, child);
        ParentAbove(s, w, b, b.Round() + 1, q, c);
        CertifiedExtendsCommitted(s, w, b, c.parent);
      }
    }
  }

  lemma CommittedIsCertified(s: Setup, w: World, b: Block)
    requires Inv(s, w) && Tolerable(s.powers(b.epoch), s.byzantine) && Committed(s, w, b)
    ensures Certified(s, w, b)
  {
  }

  /** Two committed blocks of an epoch are always on one branch. */
  lemma CommittedBlocksAgree(s: Setup, w: World, b: Block, c: Block)
    requires Inv(s, w) && Tolerable(s.powers(b.epoch), s.byzantine)
    requires Committed(s, w, b) && Committed(s, w, c) && b.epoch == c.epoch
    ensures Extends(c, b) || Extends(b, c)
  {
    CommittedIsCertified(s, w, b);
    CommittedIsCertified(s, w, c);
    if b.Round() <= c.Round() {
      CertifiedExtendsCommitted(s, w, b, c);
    } else {
      CertifiedExtendsCommitted(s, w, c, b);
    }
  }

  // ---------- runs ----------

  ghost predicate Initial(w: World) {
    && w.votes == {} && w.orders == {} && w.timeouts == {}
    && forall v :: 0 <= v < |w.data| ==> w.data[v].lastVote.None?
  }

  ghost function RunFrom(s: Setup, w: World, steps: seq<Step>): World
    decreases |steps|
  {
    if steps == [] then w else RunFrom(s, Apply(s, w, steps[0]), steps[1..])
  }

  lemma {:induction false} RunKeeps(s: Setup, w: World, steps: seq<Step>)
    requires Inv(s, w)
    ensures Inv(s, RunFrom(s, w, steps)) && Grew(w, RunFrom(s, w, steps))
    decreases |steps|
  {
    if steps != [] {
      StepKeeps(s, w, steps[0]);
      RunKeeps(s, Apply(s, w, steps[0]), steps[1..]);
    }
  }

  lemma CommittedStays(s: Setup, w: World, w': World, b: Block)
    requires Grew(w, w') && Committed(s, w, b)
    ensures Committed(s, w', b)
  {
    if HasQuorum(s, w.orders, b) {
      var q: set<nat> :| IsQuorum(s.powers(b.epoch), q) && AllSigned(s.byzantine, w.orders, q, b);
      assert AllSigned(s.byzantine, w'.orders, q, b);
    } else {
      var child :| TwoChain(s, w, b, child);
      CertifiedStays(s, w, w', child);
      assert TwoChain(s, w', b, child);
    }
  }

  /** Agreement over whole runs: a block committed at any time and a block committed at any later time
      are on one branch, as long as the faulty validators of that epoch hold less than a third. */
  lemma {:induction false} EveryRunAgrees(s: Setup, w: World, steps: seq<Step>, more: seq<Step>, b: Block, c: Block)
    requires Initial(w) && Tolerable(s.powers(b.epoch), s.byzantine) && b.epoch == c.epoch
    requires Committed(s, RunFrom(s, w, steps), b)
    requires Committed(s, RunFrom(s, RunFrom(s, w, steps), more), c)
    ensures Extends(c, b) || Extends(b, c)
  {
    var mid := RunFrom(s, w, steps);
    var end := RunFrom(s, mid, more);
    RunKeeps(s, w, steps);
    RunKeeps(s, mid, more);
    CommittedStays(s, mid, end, b);
    CommittedBlocksAgree(s, end, b, c);
  }

  // ---------- the rules do let blocks commit ----------

  ghost function AllVote(n: nat, b: Block, tc: Option<TimeoutCert>): seq<Step> {
    if n == 0 then [] else AllVote(n - 1, b, tc) + [CastVote(n - 1, b, tc)]
  }

  ghost function AllTimeOut(n: nat, round: nat, hqc: Block, tc: Option<TimeoutCert>): seq<Step> {
    if n == 0 then [] else AllTimeOut(n - 1, round, hqc, tc) + [CastTimeout(n - 1, round, hqc, tc)]
  }

  ghost function AllOrder(n: nat, b: Block): seq<Step> {
    if n == 0 then [] else AllOrder(n - 1, b) + [CastOrderVote(n - 1, b)]
  }

  /** The validator is in the block's epoch and has not gone past its round. */
  predicate Ready(d: SafetyData, b: Block) {
    d.epoch == b.epoch && d.lastVoted < b.Round() && (d.lastVote.Some? ==> d.lastVote.value.Round() < b.Round())
  }

  predicate HasVoted(w: World, v: nat, b: Block) {
    && v < |w.data| && Vote(v, b) in w.votes
    && w.data[v].epoch == b.epoch && w.data[v].lastVoted == b.Round() && w.data[v].lastVote == Some(b)
  }

  /** A proposal every ready validator may vote for. */
  ghost predicate Votable(s: Setup, w: World, b: Block, tc: Option<TimeoutCert>) {
    WellFormedProposal(b) && SafeToVote(b, tc) && Certified(s, w, b.parent) && ValidMaybeTc(s, w, b.epoch, tc)
  }

  lemma VotableStays(s: Setup, w: World, w': World, b: Block, tc: Option<TimeoutCert>)
    requires Grew(w, w') && Votable(s, w, b, tc)
    ensures Votable(s, w', b, tc)
  {
  }

  lemma {:induction false} RunAppend(s: Setup, w: World, a: seq<Step>, b: seq<Step>)
    ensures RunFrom(s, w, a + b) == RunFrom(s, RunFrom(s, w, a), b)
    decreases |a|
  {
    if a == [] {
      assert a + b == b;
    } else {
      assert (a + b)[1..] == a[1..] + b;
      RunAppend(s, Apply(s, w, a[0]), a[1..], b);
    }
  }

  lemma RunOneMore(s: Setup, w: World, a: seq<Step>, step: Step)
    ensures RunFrom(s, w, a + [step]) == Apply(s, RunFrom(s, w, a), step)
  {
    RunAppend(s, w, a, [step]);
    var mid := RunFrom(s, w, a);
    assert RunFrom(s, mid, [step]) == RunFrom(s, Apply(s, mid, step), [step][1..]);
  }

  lemma ReadyVotes(s: Setup, w: World, v: nat, b: Block, tc: Option<TimeoutCert>)
    requires v < |w.data| && v !in s.byzantine && Ready(w.data[v], b) && Votable(s, w, b, tc)
    ensures var w' := Apply(s, w, CastVote(v, b, tc));
      HasVoted(w', v, b) && Grew(w, w') && forall u :: 0 <= u < |w.data| && u != v ==> w'.data[u] == w.data[u]
  {
  }

  lemma {:induction false} AllVoteSucceeds(s: Setup, w: World, n: nat, b: Block, tc: Option<TimeoutCert>)
    requires n <= |w.data| && Votable(s, w, b, tc)
    requires forall v :: 0 <= v < |w.data| && v !in s.byzantine ==> Ready(w.data[v], b)
    ensures var w' := RunFrom(s, w, AllVote(n, b, tc));
      && Grew(w, w')
      && (forall v :: 0 <= v < n && v !in s.byzantine ==> HasVoted(w', v, b))
      && (forall v :: n <= v < |w.data| ==> w'.data[v] == w.data[v])
  {
    if n > 0 {
      AllVoteSucceeds(s, w, n - 1, b, tc);
      var mid := RunFrom(s, w, AllVote(n - 1, b, tc));
      RunOneMore(s, w, AllVote(n - 1, b, tc), CastVote(n - 1, b, tc));
      if n - 1 !in s.byzantine {
        VotableStays(s, w, mid, b, tc);
        ReadyVotes(s, mid, n - 1, b, tc);
      }
    }
  }

  /** The honest validators, if they hold a quorum. */
  ghost predicate HonestQuorum(s: Setup, w: World, epoch: nat, honest: set<nat>) {
    honest != {} && IsQuorum(s.powers(epoch), honest) && forall v :: v in honest ==> v < |w.data| && v !in s.byzantine
  }

  lemma AllVoteCertifies(s: Setup, w: World, b: Block, tc: Option<TimeoutCert>, honest: set<nat>)
    requires Votable(s, w, b, tc) && HonestQuorum(s, w, b.epoch, honest)
    requires forall v :: 0 <= v < |w.data| && v !in s.byzantine ==> Ready(w.data[v], b)
    ensures var w' := RunFrom(s, w, AllVote(|w.data|, b, tc));
      && Grew(w, w') && Certified(s, w', b)
      && (forall v :: 0 <= v < |w.data| && v !in s.byzantine ==> HasVoted(w', v, b))
  {
    AllVoteSucceeds(s, w, |w.data|, b, tc);
    var w' := RunFrom(s, w, AllVote(|w.data|, b, tc));
    assert AllSigned(s.byzantine, w'.votes, honest, b) by {
      forall v | v in honest ensures Vote(v, b) in w'.votes { assert HasVoted(w', v, b); }
    }
  }

  /** When the honest validators hold a quorum and are ready, two rounds of votes commit a block. */
  lemma {:induction false} TwoRoundsCommit(s: Setup, w: World, b: Block, tc: Option<TimeoutCert>, c: Block,
      honest: set<nat>)
    requires Votable(s, w, b, tc) && HonestQuorum(s, w, b.epoch, honest)
    requires c.Node? && c.parent == b && c.epoch == b.epoch && c.round == b.round + 1
    requires forall v :: 0 <= v < |w.data| && v !in s.byzantine ==> Ready(w.data[v], b)
    ensures Committed(s, RunFrom(s, w, AllVote(|w.data|, b, tc) + AllVote(|w.data|, c, None)), b)
  {
    var n := |w.data|;
    AllVoteCertifies(s, w, b, tc, honest);
    var mid := RunFrom(s, w, AllVote(n, b, tc));
    forall v | 0 <= v < n && v !in s.byzantine ensures Ready(mid.data[v], c) { assert HasVoted(mid, v, b); }
    AllVoteCertifies(s, mid, c, None, honest);
    RunAppend(s, w, AllVote(n, b, tc), AllVote(n, c, None));
    assert TwoChain(s, RunFrom(s, mid, AllVote(n, c, None)), b, c);
  }

  lemma {:induction false} AllOrderSucceeds(s: Setup, w: World, n: nat, b: Block)
    requires n <= |w.data| && Certified(s, w, b)
    requires forall v | 0 <= v < |w.data| && v !in s.byzantine ::
      w.data[v].epoch == b.epoch && w.data[v].highestTimeout < b.Round()
    ensures var w' := RunFrom(s, w, AllOrder(n, b));
      && Grew(w, w')
      && (forall v :: 0 <= v < n && v !in s.byzantine ==> Vote(v, b) in w'.orders)
      && (forall v :: n <= v < |w.data| ==> w'.data[v] == w.data[v])
  {
    if n > 0 {
      AllOrderSucceeds(s, w, n - 1, b);
      var mid := RunFrom(s, w, AllOrder(n - 1, b));
      RunOneMore(s, w, AllOrder(n - 1, b), CastOrderVote(n - 1, b));
      if n - 1 !in s.byzantine { CertifiedStays(s, w, mid, b); }
    }
  }

  /** Order votes commit a certified block in the round it is certified in. */
  lemma {:induction false} OrderVotesCommit(s: Setup, w: World, b: Block, honest: set<nat>)
    requires Certified(s, w, b) && HonestQuorum(s, w, b.epoch, honest)
    requires forall v | 0 <= v < |w.data| && v !in s.byzantine ::
      w.data[v].epoch == b.epoch && w.data[v].highestTimeout < b.Round()
    ensures Committed(s, RunFrom(s, w, AllOrder(|w.data|, b)), b)
  {
    AllOrderSucceeds(s, w, |w.data|, b);
    assert AllSigned(s.byzantine, RunFrom(s, w, AllOrder(|w.data|, b)).orders, honest, b);
  }

  // ---------- failed rounds do not block the next ----------

  /** The validator can time out of a round after `hqc`: it has not gone past it and has seen no later
      certificate. */
  predicate CanTimeOut(d: SafetyData, round: nat, hqc: Block) {
    && d.epoch == hqc.epoch && d.lastVoted <= round && d.oneChain <= hqc.Round()
    && (d.lastVote.Some? ==> d.lastVote.value.Round() <= round)
  }

  predicate HasTimedOut(w: World, v: nat, round: nat, hqc: Block) {
    && v < |w.data| && Timeout(v, hqc.epoch, round, hqc.Round()) in w.timeouts
    && w.data[v].lastVoted == round && CanTimeOut(w.data[v], round, hqc)
  }

  ghost predicate AllCanTimeOut(s: Setup, w: World, round: nat, hqc: Block) {
    forall v :: 0 <= v < |w.data| && v !in s.byzantine ==> CanTimeOut(w.data[v], round, hqc)
  }

  ghost predicate AllHaveTimedOut(s: Setup, w: World, round: nat, hqc: Block) {
    forall v :: 0 <= v < |w.data| && v !in s.byzantine ==> HasTimedOut(w, v, round, hqc)
  }

  lemma {:induction false} AllTimeOutSucceeds(s: Setup, w: World, n: nat, round: nat, hqc: Block,
      tc: Option<TimeoutCert>)
    requires n <= |w.data| && hqc.Round() < round && Certified(s, w, hqc) && ValidMaybeTc(s, w, hqc.epoch, tc)
    requires round == hqc.Round() + 1 || (tc.Some? && round == tc.value.round + 1)
    requires AllCanTimeOut(s, w, round, hqc)
    ensures var w' := RunFrom(s, w, AllTimeOut(n, round, hqc, tc));
      && Grew(w, w')
      && (forall v :: 0 <= v < n && v !in s.byzantine ==> HasTimedOut(w', v, round, hqc))
      && (forall v :: n <= v < |w.data| ==> w'.data[v] == w.data[v])
  {
    if n > 0 {
      AllTimeOutSucceeds(s, w, n - 1, round, hqc, tc);
      var mid := RunFrom(s, w, AllTimeOut(n - 1, round, hqc, tc));
      RunOneMore(s, w, AllTimeOut(n - 1, round, hqc, tc), CastTimeout(n - 1, round, hqc, tc));
      if n - 1 !in s.byzantine {
        CertifiedStays(s, w, mid, hqc);
        MaybeTcStays(s, w, mid, hqc.epoch, tc);
        OneTimesOut(s, mid, n - 1, round, hqc, tc);
      }
    }
  }

  lemma OneTimesOut(s: Setup, w: World, v: nat, round: nat, hqc: Block, tc: Option<TimeoutCert>)
    requires v < |w.data| && v !in s.byzantine && CanTimeOut(w.data[v], round, hqc)
    requires hqc.Round() < round && Certified(s, w, hqc) && ValidMaybeTc(s, w, hqc.epoch, tc)
    requires round == hqc.Round() + 1 || (tc.Some? && round == tc.value.round + 1)
    ensures var w' := Apply(s, w, CastTimeout(v, round, hqc, tc));
      && HasTimedOut(w', v, round, hqc) && Grew(w, w')
      && forall u :: 0 <= u < |w.data| && u != v ==> w'.data[u] == w.data[u]
  {
  }

  lemma MaybeTcStays(s: Setup, w: World, w': World, epoch: nat, tc: Option<TimeoutCert>)
    requires Grew(w, w') && ValidMaybeTc(s, w, epoch, tc)
    ensures ValidMaybeTc(s, w', epoch, tc)
  {
  }

  /** What the timeouts of a round that all report `hqc` make. */
  function TcOf(hqc: Block, round: nat, honest: set<nat>): TimeoutCert {
    TimeoutCert(hqc.epoch, round, hqc.Round(), map v | v in honest :: hqc.Round())
  }

  lemma TimeoutsCertify(s: Setup, w: World, round: nat, hqc: Block, honest: set<nat>)
    requires Certified(s, w, hqc) && HonestQuorum(s, w, hqc.epoch, honest) && hqc.Round() < round
    requires AllHaveTimedOut(s, w, round, hqc)
    ensures ValidTc(s, w, TcOf(hqc, round, honest))
  {
    var tc := TcOf(hqc, round, honest);
    assert tc.signers.Keys == honest;
    assert RoundCertified(s, w, tc.epoch, tc.hqc);
    var v :| v in honest;
    assert v in tc.signers && tc.signers[v] == tc.hqc;
    forall v | v in tc.signers ensures Timeout(v, tc.epoch, tc.round, tc.signers[v]) in w.timeouts {
      assert HasTimedOut(w, v, round, hqc);
    }
  }

  /** The certificate of the `k`-th failed round after `hqc`, if there was one. */
  function TcAfter(hqc: Block, honest: set<nat>, k: nat): Option<TimeoutCert> {
    if k == 0 then None else Some(TcOf(hqc, hqc.Round() + k, honest))
  }

  /** Everyone times out of one round ... */
  ghost function AfterRound(s: Setup, w: World, round: nat, hqc: Block, tc: Option<TimeoutCert>): World {
    RunFrom(s, w, AllTimeOut(|w.data|, round, hqc, tc))
  }

  /** ... the round after `j` failed ones, with the certificate of the last of them ... */
  ghost function NextRound(s: Setup, hqc: Block, honest: set<nat>): (World, nat) -> World {
    (w: World, j: nat) => AfterRound(s, w, hqc.Round() + j + 1, hqc, TcAfter(hqc, honest, j))
  }

  ghost function Iterate<T>(step: (T, nat) -> T, x: T, k: nat): T {
    if k == 0 then x else step(Iterate(step, x, k - 1), k - 1)
  }

  /** ... and `k` rounds in a row. */
  ghost function AfterFailed(s: Setup, w: World, hqc: Block, honest: set<nat>, k: nat): World {
    Iterate(NextRound(s, hqc, honest), w, k)
  }

  lemma {:induction false} IterateKeeps<T(!new)>(step: (T, nat) -> T, good: (T, nat) -> bool, x: T, k: nat)
    requires good(x, 0) && forall y: T, j: nat :: good(y, j) ==> good(step(y, j), j + 1)
    ensures good(Iterate(step, x, k), k)
  {
    if k > 0 { IterateKeeps(step, good, x, k - 1); }
  }

  /** Everyone has timed out of `k` rounds after `hqc` and can time out of the next one as well. */
  ghost predicate Failed(s: Setup, w: World, hqc: Block, honest: set<nat>, k: nat) {
    && Certified(s, w, hqc) && AllCanTimeOut(s, w, hqc.Round() + k + 1, hqc)
    && ValidMaybeTc(s, w, hqc.epoch, TcAfter(hqc, honest, k))
    && (k > 0 ==> AllHaveTimedOut(s, w, hqc.Round() + k, hqc))
  }

  /** However many rounds in a row fail, the next one may fail too. */
  lemma {:induction false} RoundsMayFail(s: Setup, w: World, hqc: Block, honest: set<nat>, k: nat)
    requires HonestQuorum(s, w, hqc.epoch, honest) && Failed(s, w, hqc, honest, 0)
    ensures Grew(w, AfterFailed(s, w, hqc, honest, k)) && Failed(s, AfterFailed(s, w, hqc, honest, k), hqc, honest, k)
  {
    var step, good := NextRound(s, hqc, honest), (w': World, j: nat) => Grew(w, w') && Failed(s, w', hqc, honest, j);
    forall w': World, j: nat | good(w', j) ensures good(step(w', j), j + 1) { OneMoreFails(s, w', hqc, honest, j); }
    IterateKeeps(step, good, w, k);
    assert good(AfterFailed(s, w, hqc, honest, k), k);
  }

  lemma OneMoreFails(s: Setup, w: World, hqc: Block, honest: set<nat>, k: nat)
    requires HonestQuorum(s, w, hqc.epoch, honest) && Failed(s, w, hqc, honest, k)
    ensures var w' := AfterRound(s, w, hqc.Round() + k + 1, hqc, TcAfter(hqc, honest, k));
      Grew(w, w') && Failed(s, w', hqc, honest, k + 1)
  {
    var w' := RoundFails(s, w, hqc.Round() + k + 1, hqc, TcAfter(hqc, honest, k), honest);
  }

  lemma RoundFails(s: Setup, w: World, round: nat, hqc: Block, tc: Option<TimeoutCert>, honest: set<nat>)
    returns (w': World)
    requires hqc.Round() < round && Certified(s, w, hqc) && ValidMaybeTc(s, w, hqc.epoch, tc)
    requires round == hqc.Round() + 1 || (tc.Some? && round == tc.value.round + 1)
    requires HonestQuorum(s, w, hqc.epoch, honest) && AllCanTimeOut(s, w, round, hqc)
    ensures w' == AfterRound(s, w, round, hqc, tc) && Grew(w, w') && Certified(s, w', hqc)
    ensures AllHaveTimedOut(s, w', round, hqc) && AllCanTimeOut(s, w', round + 1, hqc)
    ensures ValidTc(s, w', TcOf(hqc, round, honest))
  {
    w' := AfterRound(s, w, round, hqc, tc);
    AllTimeOutSucceeds(s, w, |w.data|, round, hqc, tc);
    CertifiedStays(s, w, w', hqc);
    TimeoutsCertify(s, w', round, hqc, honest);
    forall v | 0 <= v < |w'.data| && v !in s.byzantine ensures CanTimeOut(w'.data[v], round + 1, hqc) {
      assert HasTimedOut(w', v, round, hqc);
    }
  }

  /** After any number of failed rounds the timeouts of the last one make a certificate with which a
      proposal that extends `hqc` in the round after that is voted for and committed. */
  lemma {:induction false} CommitsAfterTimeouts(s: Setup, w: World, hqc: Block, b: Block, c: Block, honest: set<nat>,
      k: nat)
    requires HonestQuorum(s, w, hqc.epoch, honest) && Failed(s, w, hqc, honest, 0) && k > 0
    requires b.Node? && b.parent == hqc && b.epoch == hqc.epoch && b.round == hqc.Round() + k + 1
    requires c.Node? && c.parent == b && c.epoch == b.epoch && c.round == b.round + 1
    ensures var n, tc := |w.data|, TcAfter(hqc, honest, k);
      Committed(s, RunFrom(s, AfterFailed(s, w, hqc, honest, k), AllVote(n, b, tc) + AllVote(n, c, None)), b)
  {
    RoundsMayFail(s, w, hqc, honest, k);
    var mid := AfterFailed(s, w, hqc, honest, k);
    assert Votable(s, mid, b, TcAfter(hqc, honest, k));
    forall v | 0 <= v < |w.data| && v !in s.byzantine ensures Ready(mid.data[v], b) {
      assert HasTimedOut(mid, v, hqc.Round() + k, hqc);
    }
    TwoRoundsCommit(s, mid, b, TcAfter(hqc, honest, k), c, honest);
  }
}
