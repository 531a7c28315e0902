/** The committed ledger as the API node reads it: a sequence of blocks, each holding a run of
    consecutive transaction versions.  The newest block may still be growing. */
module Chain {
  import opened Wrappers

  datatype UseCase = Platform | ContractAddress(address: nat) | Others

  datatype Txn =
    | UserTxn(price: nat, gasUsed: nat, useCase: UseCase)
    | BlockMetadata(timestamp: nat)          // also stands for the extended form
    | BlockEpilogue(limitReached: Option<bool>)
    | OtherTxn

  datatype Block = Block(epoch: nat, timestamp: nat, first: nat, txns: seq<Txn>) {
    function Last(): int { first + |txns| - 1 }
  }

  /** Block `i` starts where block `i - 1` ends; epochs never decrease and only genesis is in epoch 0. */
  ghost predicate Linked(chain: seq<Block>, i: nat)
    requires 1 <= i < |chain|
  {
    chain[i].first == chain[i - 1].Last() + 1 && chain[i - 1].epoch <= chain[i].epoch && chain[i].epoch >= 1
  }

  /** Genesis is one transaction in epoch 0; blocks are non-empty and linked. */
  ghost predicate WellFormed(chain: seq<Block>) {
    && |chain| >= 1
    && chain[0].first == 0 && chain[0].epoch == 0 && |chain[0].txns| == 1
    && (forall i :: 0 <= i < |chain| ==> |chain[i].txns| >= 1)
    && (forall i :: 1 <= i < |chain| ==> Linked(chain, i))
  }

  function LastVersion(chain: seq<Block>): int
    requires |chain| >= 1
  {
    chain[|chain| - 1].Last()
  }

  /** A later view of the ledger: whole blocks never change, the newest one (unless it is genesis)
      may have gained transactions, and new blocks may follow. */
  ghost predicate Grows(old_: seq<Block>, new_: seq<Block>) {
    && 1 <= |old_| <= |new_|
    && (forall i :: 0 <= i < |old_| && Sealed(old_, i) ==> new_[i] == old_[i])
    && new_[|old_| - 1].epoch == old_[|old_| - 1].epoch
    && new_[|old_| - 1].first == old_[|old_| - 1].first
    && old_[|old_| - 1].txns <= new_[|old_| - 1].txns
  }

  /** Block `i` can no longer gain transactions. */
  predicate Sealed(chain: seq<Block>, i: nat) {
    i + 1 < |chain| || i == 0
  }

  ghost predicate Holds(chain: seq<Block>, i: nat, v: nat) {
    i < |chain| && chain[i].first <= v <= chain[i].Last()
  }

  lemma {:induction false} VersionsIncrease(chain: seq<Block>, i: nat, j: nat)
    requires WellFormed(chain) && i < j < |chain|
    ensures chain[i].Last() < chain[j].first
    decreases j - i
  {
    assert Linked(chain, i + 1);
    if i + 1 < j { VersionsIncrease(chain, i + 1, j); }
  }

  lemma {:induction false} EpochsOrdered(chain: seq<Block>, i: nat, j: nat)
    requires WellFormed(chain) && i <= j < |chain|
    ensures chain[i].epoch <= chain[j].epoch
    decreases j - i
  {
    if i < j {
      assert Linked(chain, i + 1);
      EpochsOrdered(chain, i + 1, j);
    }
  }

  lemma {:induction false} BlockExists(chain: seq<Block>, v: nat, n: nat)
    requires WellFormed(chain) && n < |chain| && v <= chain[n].Last()
    ensures exists i :: Holds(chain, i, v)
    decreases n
  {
    if chain[n].first <= v {
      assert Holds(chain, n, v);
    } else {
      assert Linked(chain, n);
      BlockExists(chain, v, n - 1);
    }
  }

  /** The position of the block that holds version `v`. */
  ghost function BlockIndex(chain: seq<Block>, v: nat): (i: nat)
    requires WellFormed(chain) && v <= LastVersion(chain)
    ensures Holds(chain, i, v)
  {
    BlockExists(chain, v, |chain| - 1);
    var i: nat :| Holds(chain, i, v);
    i
  }

  lemma BlockIndexUnique(chain: seq<Block>, v: nat, i: nat)
    requires WellFormed(chain) && Holds(chain, i, v)
    ensures v <= LastVersion(chain) && BlockIndex(chain, v) == i
  {
    if i < |chain| - 1 { VersionsIncrease(chain, i, |chain| - 1); }
    var k := BlockIndex(chain, v);
    if k < i { VersionsIncrease(chain, k, i); }
    if i < k { VersionsIncrease(chain, i, k); }
  }

  /** The store's `get_block_info_by_version`: fails on a version it cannot read. */
  method GetBlockByVersion(chain: seq<Block>, unreadable: set<nat>, v: nat) returns (r: Option<Block>)
    requires WellFormed(chain) && v <= LastVersion(chain)
    ensures v in unreadable ==> r == None
    ensures v !in unreadable ==> r == Some(chain[BlockIndex(chain, v)])
  {
    if v in unreadable { return None; }
    var i := |chain| - 1;
    while chain[i].first > v
      invariant 0 <= i < |chain| && v <= chain[i].Last()
    {
      assert Linked(chain, i);
      i := i - 1;
    }
    BlockIndexUnique(chain, v, i);
    r := Some(chain[i]);
  }

  lemma GrowsTransitive(a: seq<Block>, b: seq<Block>, c: seq<Block>)
    requires Grows(a, b) && Grows(b, c)
    ensures Grows(a, c)
  {
  }

  /** The first block of epoch `e` at or before block `k`. */
  function EpochStart(chain: seq<Block>, k: nat): (s: nat)
    requires k < |chain|
    ensures s <= k && chain[s].epoch == chain[k].epoch
    ensures s > 0 ==> chain[s - 1].epoch != chain[k].epoch
    ensures forall i :: s <= i <= k ==> chain[i].epoch == chain[k].epoch
  {
    if k == 0 || chain[k - 1].epoch != chain[k].epoch then k else EpochStart(chain, k - 1)
  }
}
