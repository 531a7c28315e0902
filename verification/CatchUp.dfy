/** How nodes that fell behind catch up with later epochs: epoch change proofs, and the protocol that
    asks for and serves them over a network that loses, duplicates and reorders messages. */
module CatchUp {
  import opened Wrappers
  import opened EpochTypes
  import opened EpochManager

  /** The last ledger info of an epoch: signed under that epoch's verifier, it carries the next one. */
  datatype LedgerInfo = LedgerInfo(epoch: nat, signedBy: nat, next: Option<EpochState>)

  const MAX_LEDGER_INFOS := 100

  // ---------- checking a proof ----------

  /** Drops the entries the verifier is already past. */
  function SkipStale(es: EpochState, lis: seq<LedgerInfo>): seq<LedgerInfo> {
    if lis != [] && lis[0].epoch < es.epoch then SkipStale(es, lis[1..]) else lis
  }

  /** Each entry is of the epoch of the verifier before it, is signed under it and names the next. */
  predicate Chained(es: EpochState, lis: seq<LedgerInfo>)
    decreases |lis|
  {
    || lis == []
    || (&& lis[0].epoch == es.epoch && lis[0].signedBy == es.verifier
        && lis[0].next.Some? && Chained(lis[0].next.value, lis[1..]))
  }

  predicate Accepts(es: EpochState, lis: seq<LedgerInfo>) {
    lis != [] && lis[|lis| - 1].epoch >= es.epoch && Chained(es, SkipStale(es, lis))
  }

  /** The verification loop. */
  method VerifyProof(es: EpochState, lis: seq<LedgerInfo>) returns (r: Result<LedgerInfo, ()>)
    ensures r == if Accepts(es, lis) then Ok(lis[|lis| - 1]) else Err(())
  {
    if lis == [] { return Err(()); }
    if lis[|lis| - 1].epoch < es.epoch { return Err(()); }
    var i := 0;
    while i < |lis| && lis[i].epoch < es.epoch
      invariant i <= |lis| && SkipStale(es, lis[i..]) == SkipStale(es, lis)
    {
      assert lis[i..][1..] == lis[i + 1..];
      i := i + 1;
    }
    assert SkipStale(es, lis) == lis[i..];
    var verifier := es;
    while i < |lis|
      invariant i <= |lis| && Chained(es, SkipStale(es, lis)) == Chained(verifier, lis[i..])
    {
      if verifier.epoch != lis[i].epoch || lis[i].signedBy != verifier.verifier || lis[i].next.None? { return Err(()); }
      assert lis[i..][1..] == lis[i + 1..];
      verifier := lis[i].next.value;
      i := i + 1;
    }
    return Ok(lis[|lis| - 1]);
  }

  // ---------- the one true history ----------

  function StateOf(h: seq<LedgerInfo>, genesis: EpochState, e: nat): Option<EpochState>
    requires e <= |h|
  {
    if e == 0 then Some(genesis) else h[e - 1].next
  }

  predicate EndsAt(h: seq<LedgerInfo>, genesis: EpochState, e: nat)
    requires e < |h|
  {
    var es := StateOf(h, genesis, e);
    && es.Some? && h[e].epoch == e && h[e].signedBy == es.value.verifier
    && h[e].next.Some? && h[e].next.value.epoch == e + 1
  }

  ghost predicate History(h: seq<LedgerInfo>, genesis: EpochState) {
    genesis.epoch == 0 && forall e :: 0 <= e < |h| ==> EndsAt(h, genesis, e)
  }

  lemma StateKnown(h: seq<LedgerInfo>, genesis: EpochState, e: nat)
    requires History(h, genesis) && e <= |h|
    ensures StateOf(h, genesis, e).Some? && StateOf(h, genesis, e).value.epoch == e
  {
    if e > 0 { assert EndsAt(h, genesis, e - 1); }
  }

  /** A stretch of the history is accepted by everyone whose epoch it starts with or contains. */
  lemma {:induction false} HistoryChained(h: seq<LedgerInfo>, genesis: EpochState, a: nat, b: nat)
    requires History(h, genesis) && a <= b <= |h|
    ensures StateOf(h, genesis, a).Some? && Chained(StateOf(h, genesis, a).value, h[a..b])
    decreases b - a
  {
    StateKnown(h, genesis, a);
    if a < b {
      assert EndsAt(h, genesis, a);
      HistoryChained(h, genesis, a + 1, b);
      assert h[a..b][1..] == h[a + 1..b];
    }
  }

  /** Nobody can sign for an epoch's verifier except the validators who ended that epoch. */
  ghost predicate Unforgeable(h: seq<LedgerInfo>, genesis: EpochState, lis: seq<LedgerInfo>) {
    forall i :: 0 <= i < |lis| ==> SignedMeansReal(h, genesis, lis[i])
  }

  predicate SignedUnder(es: Option<EpochState>, li: LedgerInfo) { es.Some? && es.value.verifier == li.signedBy }

  predicate SignedMeansReal(h: seq<LedgerInfo>, genesis: EpochState, li: LedgerInfo) {
    li.epoch <= |h| && SignedUnder(StateOf(h, genesis, li.epoch), li) ==> li.epoch < |h| && li == h[li.epoch]
  }

  lemma {:induction false} ChainedIsHistory(h: seq<LedgerInfo>, genesis: EpochState, a: nat, lis: seq<LedgerInfo>)
    requires History(h, genesis) && a <= |h| && Unforgeable(h, genesis, lis)
    requires StateOf(h, genesis, a).Some? && Chained(StateOf(h, genesis, a).value, lis)
    ensures a + |lis| <= |h| && lis == h[a..a + |lis|]
    decreases |lis|
  {
    StateKnown(h, genesis, a);
    if lis != [] {
      assert SignedMeansReal(h, genesis, lis[0]);
      forall i | 0 <= i < |lis[1..]|
        ensures SignedMeansReal(h, genesis, lis[1..][i])
      {
        assert lis[1..][i] == lis[i + 1];
      }
      ChainedIsHistory(h, genesis, a + 1, lis[1..]);
      assert lis == [lis[0]] + lis[1..];
      assert h[a..a + |lis|] == [h[a]] + h[a + 1..a + |lis|];
    }
  }

  /** Whatever a proof contains, if a node of epoch `e` accepts it then its unskipped part is the true
      history from epoch `e` on, and the node is moved to the epoch after the last entry. */
  lemma {:induction false} AcceptedProofIsTrue(h: seq<LedgerInfo>, genesis: EpochState, e: nat, lis: seq<LedgerInfo>)
    requires History(h, genesis) && e <= |h| && Unforgeable(h, genesis, lis)
    requires StateOf(h, genesis, e).Some? && Accepts(StateOf(h, genesis, e).value, lis)
    ensures var k := lis[|lis| - 1].epoch;
      e <= k < |h| && lis[|lis| - 1] == h[k] && SkipStale(StateOf(h, genesis, e).value, lis) == h[e..k + 1]
  {
    var es := StateOf(h, genesis, e).value;
    StateKnown(h, genesis, e);
    var rest := SkipStale(es, lis);
    SkipKeepsLast(es, lis);
    SkipKeepsReal(h, genesis, es, lis);
    ChainedIsHistory(h, genesis, e, rest);
    assert EndsAt(h, genesis, e + |rest| - 1);
    assert rest[|rest| - 1] == h[e + |rest| - 1];
  }

  lemma {:induction false} SkipKeepsReal(h: seq<LedgerInfo>, genesis: EpochState, es: EpochState, lis: seq<LedgerInfo>)
    requires Unforgeable(h, genesis, lis)
    ensures Unforgeable(h, genesis, SkipStale(es, lis))
  {
    if lis != [] && lis[0].epoch < es.epoch {
      forall i | 0 <= i < |lis[1..]|
        ensures SignedMeansReal(h, genesis, lis[1..][i])
      {
        assert lis[1..][i] == lis[i + 1];
      }
      SkipKeepsReal(h, genesis, es, lis[1..]);
    }
  }

  lemma {:induction false} SkipKeepsLast(es: EpochState, lis: seq<LedgerInfo>)
    requires lis != [] && lis[|lis| - 1].epoch >= es.epoch
    ensures SkipStale(es, lis) != [] && SkipStale(es, lis)[|SkipStale(es, lis)| - 1] == lis[|lis| - 1]
  {
    if lis[0].epoch < es.epoch { SkipKeepsLast(es, lis[1..]); }
  }
}
