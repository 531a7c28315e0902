/** The timestamps of rendered transactions: one running value, or a lookup per version. */
module Rendering {
  import opened Wrappers
  import opened Chain

  /** A block announces its timestamp in its first transaction and nowhere else; genesis announces none. */
  predicate Announced(b: Block, genesis: bool)
  {
    && |b.txns| >= 1
    && (if genesis then !b.txns[0].BlockMetadata? else b.txns[0] == BlockMetadata(b.timestamp))
    && forall i :: 1 <= i < |b.txns| ==> !b.txns[i].BlockMetadata?
  }

  ghost predicate Timed(chain: seq<Block>) {
    WellFormed(chain) && forall i :: 0 <= i < |chain| ==> Announced(chain[i], i == 0)
  }

  ghost function TxnAt(chain: seq<Block>, v: nat): Txn
    requires WellFormed(chain) && v <= LastVersion(chain)
  {
    var b := chain[BlockIndex(chain, v)];
    b.txns[v - b.first]
  }

  ghost function TimestampAt(chain: seq<Block>, v: nat): nat
    requires WellFormed(chain) && v <= LastVersion(chain)
  {
    chain[BlockIndex(chain, v)].timestamp
  }

  /** `data` is the stretch of the ledger that starts at version `start`. */
  ghost predicate Stretch(chain: seq<Block>, start: nat, data: seq<Txn>)
    requires WellFormed(chain)
  {
    start + |data| - 1 <= LastVersion(chain) && forall i :: 0 <= i < |data| ==> data[i] == TxnAt(chain, start + i)
  }

  /** Going one version on either stays in the block or enters the next one at its announcement. */
  lemma NextTimestamp(chain: seq<Block>, v: nat)
    requires Timed(chain) && v + 1 <= LastVersion(chain)
    ensures TimestampAt(chain, v + 1)
         == if TxnAt(chain, v + 1).BlockMetadata? then TxnAt(chain, v + 1).timestamp else TimestampAt(chain, v)
  {
    var i := BlockIndex(chain, v);
    assert Announced(chain[i], i == 0);
    if v + 1 <= chain[i].Last() {
      BlockIndexUnique(chain, v + 1, i);
    } else {
      if i == |chain| - 1 { assert false; }
      assert Linked(chain, i + 1);
      assert Announced(chain[i + 1], false);
      BlockIndexUnique(chain, v + 1, i + 1);
    }
  }

  /** One running timestamp, started from the block of the first version, gives every transaction of the
      stretch the timestamp of its own block. */
  method RenderSequential(chain: seq<Block>, start: nat, data: seq<Txn>, timestamp0: nat) returns (stamps: seq<nat>)
    requires Timed(chain) && Stretch(chain, start, data)
    requires data != [] ==> timestamp0 == TimestampAt(chain, start)
    ensures |stamps| == |data| && forall i :: 0 <= i < |data| ==> stamps[i] == TimestampAt(chain, start + i)
  {
    stamps := [];
    var timestamp := timestamp0;
    for i := 0 to |data|
      invariant |stamps| == i && forall k :: 0 <= k < i ==> stamps[k] == TimestampAt(chain, start + k)
      invariant i > 0 ==> timestamp == TimestampAt(chain, start + i - 1)
      invariant i == 0 ==> timestamp == timestamp0
    {
      if i > 0 { NextTimestamp(chain, start + i - 1); } else { FirstTimestamp(chain, start); }
      if data[i].BlockMetadata? { timestamp := data[i].timestamp; }
      stamps := stamps + [timestamp];
    }
  }

  lemma FirstTimestamp(chain: seq<Block>, v: nat)
    requires Timed(chain) && v <= LastVersion(chain)
    ensures TxnAt(chain, v).BlockMetadata? ==> TxnAt(chain, v).timestamp == TimestampAt(chain, v)
  {
  }

  /** A lookup per version: the same timestamps. */
  method RenderNonSequential(chain: seq<Block>, start: nat, data: seq<Txn>) returns (stamps: seq<nat>)
    requires Timed(chain) && Stretch(chain, start, data)
    ensures |stamps| == |data| && forall i :: 0 <= i < |data| ==> stamps[i] == TimestampAt(chain, start + i)
  {
    stamps := [];
    for i := 0 to |data|
      invariant |stamps| == i && forall k :: 0 <= k < i ==> stamps[k] == TimestampAt(chain, start + k)
    {
      var b := GetBlockByVersion(chain, {}, start + i);
      stamps := stamps + [b.value.timestamp];
    }
  }

  /** The listing endpoint renders sequentially from the block timestamp of the first version. */
  method List(chain: seq<Block>, start: nat, data: seq<Txn>) returns (sequential: seq<nat>, looked: seq<nat>)
    requires Timed(chain) && Stretch(chain, start, data) && start <= LastVersion(chain)
    ensures sequential == looked && |looked| == |data|
  {
    var first := GetBlockByVersion(chain, {}, start);
    sequential := RenderSequential(chain, start, data, first.value.timestamp);
    looked := RenderNonSequential(chain, start, data);
  }
}
