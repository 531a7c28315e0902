/** The 2-chain safety rules of one validator: what it may sign, and what it must remember. */
module SafetyRules {
  import opened Wrappers

  /** A proposal carries a quorum certificate for its parent; an epoch starts from its own genesis block. */
  datatype Block = Genesis(epoch: nat) | Node(epoch: nat, round: nat, parent: Block, payload: nat) {
    function Round(): nat { if Genesis? then 0 else round }
    /** Genesis is its own parent. */
    function Parent(): Block { if Genesis? then this else parent }
  }

  /** A timeout certificate: who signed a timeout of `round`, with which highest certified round, and
      the highest of those rounds. */
  datatype TimeoutCert = TimeoutCert(epoch: nat, round: nat, hqc: nat, signers: map<nat, nat>)

  datatype SafetyData = SafetyData(
    epoch: nat,
    lastVoted: nat,
    preferred: nat,
    oneChain: nat,
    lastVote: Option<Block>,
    highestTimeout: nat)

  datatype Error =
    | NotInitialized
    | IncorrectEpoch
    | InvalidCertificate
    | InvalidProposal
    | IncorrectLastVotedRound
    | NotSafeToVote
    | NotSafeToTimeout
    | NotSafeForOrderVote
    | StorageError

  function Max(a: nat, b: nat): nat { if a < b then b else a }

  function TcRound(tc: Option<TimeoutCert>): nat { if tc.Some? then tc.value.round else 0 }

  function TcHighest(tc: Option<TimeoutCert>): nat { if tc.Some? then tc.value.hqc else 0 }

  /** The proposal is not a genesis block, and its parent is of the same epoch and a lower round. */
  predicate WellFormedProposal(b: Block) {
    b.Node? && b.parent.Round() < b.round && b.parent.epoch == b.epoch
  }

  function ObserveQc(d: SafetyData, certified: Block): SafetyData {
    d.(oneChain := Max(d.oneChain, certified.Round()), preferred := Max(d.preferred, certified.Parent().Round()))
  }

  predicate SafeToVote(b: Block, tc: Option<TimeoutCert>) {
    || b.Round() == b.Parent().Round() + 1
    || (b.Round() == TcRound(tc) + 1 && b.Parent().Round() >= TcHighest(tc))
  }

  predicate SafeToTimeout(d: SafetyData, round: nat, hqc: nat, tc: Option<TimeoutCert>) {
    (round == hqc + 1 || round == TcRound(tc) + 1) && hqc >= d.oneChain
  }

  /** What a signing request changes and what is signed. */
  datatype Signed = Signed(data: SafetyData, block: Block, write: bool)

  /** `qcOk` and `tcOk` say whether the certificates check out. */
  function VoteStep(d: SafetyData, b: Block, tc: Option<TimeoutCert>, qcOk: bool, tcOk: bool): Result<Signed, Error> {
    if b.epoch != d.epoch then Err(IncorrectEpoch)
    else if !qcOk then Err(InvalidCertificate)
    else if !WellFormedProposal(b) then Err(InvalidProposal)
    else if tc.Some? && !tcOk then Err(InvalidCertificate)
    else if d.lastVote.Some? && d.lastVote.value.Round() == b.round then Ok(Signed(d, d.lastVote.value, false))
    else if b.round <= d.lastVoted then Err(IncorrectLastVotedRound)
    else if !SafeToVote(b, tc) then Err(NotSafeToVote)
    else Ok(Signed(ObserveQc(d.(lastVoted := b.round), b.parent).(lastVote := Some(b)), b, true))
  }

  function TimeoutStep(d: SafetyData, epoch: nat, round: nat, hqc: Block, tc: Option<TimeoutCert>, qcOk: bool,
      tcOk: bool): Result<SafetyData, Error> {
    if epoch != d.epoch then Err(IncorrectEpoch)
    else if hqc.Round() >= round || !qcOk then Err(InvalidCertificate)
    else if tc.Some? && !tcOk then Err(InvalidCertificate)
    else if !SafeToTimeout(d, round, hqc.Round(), tc) then Err(NotSafeToTimeout)
    else if round < d.lastVoted then Err(IncorrectLastVotedRound)
    else Ok(d.(lastVoted := Max(d.lastVoted, round), highestTimeout := Max(d.highestTimeout, round)))
  }

  /** An order vote is for a block that already has a quorum certificate. */
  function OrderVoteStep(d: SafetyData, b: Block, qcOk: bool): Result<SafetyData, Error> {
    if b.epoch != d.epoch then Err(IncorrectEpoch)
    else if !qcOk then Err(InvalidCertificate)
    else if b.Round() <= d.highestTimeout then Err(NotSafeForOrderVote)
    else Ok(ObserveQc(d, b))
  }

  /** A later epoch starts from scratch; an earlier one is refused. */
  function InitializeStep(d: SafetyData, epoch: nat): Option<SafetyData> {
    if epoch < d.epoch then None
    else if epoch == d.epoch then Some(d)
    else Some(SafetyData(epoch, 0, 0, 0, None, 0))
  }

  // ---------- the rules in plain rounds ----------

  predicate Larger(a: nat, b: nat, x: nat) { x >= a && x >= b && (x == a || x == b) }

  /** The round of a certificate that comes along and the highest certified round it reports; without
      one, both are 0. */
  function TcRounds(tc: Option<TimeoutCert>): (nat, nat) {
    match tc case Some(t) => (t.round, t.hqc) case None => (0, 0)
  }

  /** When a vote is given, for which block, and what is remembered. */
  lemma VoteMeans(d: SafetyData, b: Block, tc: Option<TimeoutCert>, qcOk: bool, tcOk: bool)
    ensures var r := VoteStep(d, b, tc, qcOk, tcOk);
      var again := b.Node? && d.lastVote.Some? && d.lastVote.value.Round() == b.round;
      && (r.Ok? <==>
          && b.epoch == d.epoch && qcOk && (tc.Some? ==> tcOk)
          && b.Node? && b.parent.epoch == b.epoch && b.parent.Round() < b.round
          && (again
              || (&& b.round > d.lastVoted
                  && (b.round == b.parent.Round() + 1
                      || (b.round == TcRounds(tc).0 + 1 && b.parent.Round() >= TcRounds(tc).1)))))
      && (r.Ok? && again ==> r.value == Signed(d, d.lastVote.value, false))
      && (r.Ok? && !again ==>
          var d' := r.value.data;
          && r.value.block == b && r.value.write && d'.lastVote == Some(b) && d'.lastVoted == b.round
          && Larger(d.oneChain, b.parent.Round(), d'.oneChain)
          && Larger(d.preferred, b.parent.Parent().Round(), d'.preferred)
          && d'.epoch == d.epoch && d'.highestTimeout == d.highestTimeout)
  {
  }

  /** When a timeout is signed: in the round after the highest certified block or after the round of the
      timeout certificate, with nothing certified beyond that seen, and never for an earlier round. */
  lemma TimeoutMeans(d: SafetyData, epoch: nat, round: nat, hqc: Block, tc: Option<TimeoutCert>, qcOk: bool, tcOk: bool)
    ensures var r := TimeoutStep(d, epoch, round, hqc, tc, qcOk, tcOk);
      && (r.Ok? <==>
          && epoch == d.epoch && qcOk && (tc.Some? ==> tcOk) && hqc.Round() < round
          && (round == hqc.Round() + 1 || round == TcRounds(tc).0 + 1)
          && hqc.Round() >= d.oneChain && round >= d.lastVoted)
      && (r.Ok? ==>
          && r.value.lastVoted == round && Larger(d.highestTimeout, round, r.value.highestTimeout)
          && r.value == d.(lastVoted := r.value.lastVoted, highestTimeout := r.value.highestTimeout))
  {
  }

  /** When an order vote is given: for a certified block of a round not timed out of. */
  lemma OrderVoteMeans(d: SafetyData, b: Block, qcOk: bool)
    ensures var r := OrderVoteStep(d, b, qcOk);
      && (r.Ok? <==> b.epoch == d.epoch && qcOk && b.Round() > d.highestTimeout)
      && (r.Ok? ==>
          && Larger(d.oneChain, b.Round(), r.value.oneChain)
          && Larger(d.preferred, b.Parent().Round(), r.value.preferred)
          && r.value == d.(oneChain := r.value.oneChain, preferred := r.value.preferred))
  {
  }

  // ---------- the persistent component ----------

  /** A failed write may or may not have reached the disk. */
  datatype WriteOutcome = Written | Lost | WrittenButFailed

  class Rules {
    var stored: SafetyData
    var cached: Option<SafetyData>
    var hasSigner: bool
    var verifier: Option<nat>       // the epoch whose validator set certificates are checked against

    constructor (epoch: nat)
      ensures Valid() && stored == SafetyData(epoch, 0, 0, 0, None, 0) && !hasSigner && verifier == None
    {
      stored, cached, hasSigner, verifier := SafetyData(epoch, 0, 0, 0, None, 0), None, false, None;
    }

    /** The cache never disagrees with the disk, and a signer comes with a verifier. */
    ghost predicate Valid()
      reads this
    {
      (cached.Some? ==> cached.value == stored) && (hasSigner ==> verifier.Some?)
    }

    method Read() returns (d: SafetyData)
      requires Valid()
      modifies this`cached
      ensures Valid() && d == stored
    {
      if cached.None? { cached := Some(stored); }
      d := cached.value;
    }

    method Write(d: SafetyData, w: WriteOutcome) returns (ok: bool)
      requires Valid()
      modifies this`stored, this`cached
      ensures Valid() && ok == w.Written? && stored == if w.Lost? then old(stored) else d
    {
      if !w.Lost? { stored := d; }
      cached := if w.Written? then Some(d) else None;
      ok := w.Written?;
    }

    /** A vote leaves this method only after the data that restrains later votes is on disk.  `qcOk` and
        `tcOk` say against which validator sets the certificates check out. */
    method ConstructAndSignVote(b: Block, tc: Option<TimeoutCert>, qcOk: nat -> bool, tcOk: nat -> bool,
        w: WriteOutcome)
      returns (r: Result<Block, Error>)
      requires Valid()
      modifies this`stored, this`cached
      ensures Valid()
      ensures !hasSigner ==> r == Err(NotInitialized) && stored == old(stored)
      ensures hasSigner ==>
        var step := VoteStep(old(stored), b, tc, qcOk(verifier.value), tcOk(verifier.value));
        if step.Err? then r == Err(step.error) && stored == old(stored)
        else
          && r == (if !step.value.write || w.Written? then Ok(step.value.block) else Err(StorageError))
          && stored == if w.Lost? then old(stored) else step.value.data
    {
      if !hasSigner { return Err(NotInitialized); }
      var d := Read();
      if b.epoch != d.epoch { return Err(IncorrectEpoch); }
      if !qcOk(verifier.value) { return Err(InvalidCertificate); }
      if !WellFormedProposal(b) { return Err(InvalidProposal); }
      if tc.Some? && !tcOk(verifier.value) { return Err(InvalidCertificate); }
      if d.lastVote.Some? && d.lastVote.value.Round() == b.round { return Ok(d.lastVote.value); }
      if b.round <= d.lastVoted { return Err(IncorrectLastVotedRound); }
      d := d.(lastVoted := b.round);
      if !SafeToVote(b, tc) { return Err(NotSafeToVote); }
      d := ObserveQc(d, b.parent);
      d := d.(lastVote := Some(b));
      var ok := Write(d, w);
      r := if ok then Ok(b) else Err(StorageError);
    }

    method SignTimeoutWithQc(epoch: nat, round: nat, hqc: Block, tc: Option<TimeoutCert>, qcOk: nat -> bool,
        tcOk: nat -> bool, w: WriteOutcome)
      returns (r: Result<(), Error>)
      requires Valid()
      modifies this`stored, this`cached
      ensures Valid()
      ensures !hasSigner ==> r == Err(NotInitialized) && stored == old(stored)
      ensures hasSigner ==>
        var step := TimeoutStep(old(stored), epoch, round, hqc, tc, qcOk(verifier.value), tcOk(verifier.value));
        if step.Err? then r == Err(step.error) && stored == old(stored)
        else
          && r == (if w.Written? then Ok(()) else Err(StorageError))
          && stored == if w.Lost? then old(stored) else step.value
    {
      if !hasSigner { return Err(NotInitialized); }
      var d := Read();
      if epoch != d.epoch { return Err(IncorrectEpoch); }
      if hqc.Round() >= round || !qcOk(verifier.value) { return Err(InvalidCertificate); }
      if tc.Some? && !tcOk(verifier.value) { return Err(InvalidCertificate); }
      if !SafeToTimeout(d, round, hqc.Round(), tc) { return Err(NotSafeToTimeout); }
      if round < d.lastVoted { return Err(IncorrectLastVotedRound); }
      if round > d.lastVoted { d := d.(lastVoted := round); }
      if round > d.highestTimeout { d := d.(highestTimeout := round); }
      var ok := Write(d, w);
      r := if ok then Ok(()) else Err(StorageError);
    }

    method ConstructAndSignOrderVote(b: Block, qcOk: nat -> bool, w: WriteOutcome) returns (r: Result<Block, Error>)
      requires Valid()
      modifies this`stored, this`cached
      ensures Valid()
      ensures !hasSigner ==> r == Err(NotInitialized) && stored == old(stored)
      ensures hasSigner ==>
        var step := OrderVoteStep(old(stored), b, qcOk(verifier.value));
        if step.Err? then r == Err(step.error) && stored == old(stored)
        else
          && r == (if w.Written? then Ok(b) else Err(StorageError))
          && stored == if w.Lost? then old(stored) else step.value
    {
      if !hasSigner { return Err(NotInitialized); }
      var d := Read();
      if b.epoch != d.epoch { return Err(IncorrectEpoch); }
      if !qcOk(verifier.value) { return Err(InvalidCertificate); }
      d := ObserveQc(d, b);
      if b.Round() <= d.highestTimeout { return Err(NotSafeForOrderVote); }
      var ok := Write(d, w);
      r := if ok then Ok(b) else Err(StorageError);
    }

    /** Moving to a later epoch forgets the rounds of the earlier one; the key may be missing.  A write
        that fails leaves verifier and signer as they were, also if it reached the disk. */
    method Initialize(epoch: nat, hasKey: bool, w: WriteOutcome) returns (ok: bool)
      requires Valid()
      modifies this
      ensures Valid()
      ensures stored == if w.Lost? then old(stored) else InitializeStep(old(stored), epoch).GetOr(old(stored))
      ensures if epoch == old(stored).epoch || (epoch > old(stored).epoch && w.Written?)
        then ok == hasKey && hasSigner == hasKey && verifier == Some(epoch)
        else !ok && hasSigner == old(hasSigner) && verifier == old(verifier)
    {
      var d := Read();
      if epoch < d.epoch { return false; }
      if epoch > d.epoch {
        var written := Write(SafetyData(epoch, 0, 0, 0, None, 0), w);
        if !written { return false; }
      }
      verifier := Some(epoch);
      hasSigner := hasKey;
      ok := hasKey;
    }

    /** A restart loses everything that is not on disk. */
    method Restart()
      requires Valid()
      modifies this
      ensures Valid() && stored == old(stored) && !hasSigner && verifier == None
    {
      cached, hasSigner, verifier := None, false, None;
    }
  }
}
