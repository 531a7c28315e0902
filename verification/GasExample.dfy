/** Two requests in the wrong order: the second answer is not what its own ledger version gives. */
module GasExample {
  import opened Wrappers
  import opened Chain
  import opened GasPrices
  import opened GasCache
  import opened GasEstimator

  /** A block of one bid and an end-of-block transaction. */
  function Bid(epoch: nat, first: nat, price: nat): Block {
    Block(epoch, first, first, [UserTxn(price, 0, Others), OtherTxn])
  }

  /** Genesis and four full blocks of epoch 1, priced 1, 2, 3 and 4. */
  function Bids(): seq<Block> {
    [Block(0, 0, 0, [OtherTxn]), Bid(1, 1, 1), Bid(1, 3, 2), Bid(1, 5, 3), Bid(1, 7, 4)]
  }

  /** One bid fills a block, and all three estimates look at two blocks. */
  function TwoBlocks(): GasConfig { GasConfig(true, None, 1, 2, 2, 2, 10, false, []) }

  function NoLimits(epoch: nat): OnChain { OnChain(0, None, None) }

  function FirstBid(b: Block): nat { if |b.txns| == 2 && b.txns[0].UserTxn? then b.txns[0].price else 0 }

  lemma BidPriced(epoch: nat, first: nat, price: nat)
    ensures var read := Bid(epoch, first, price).txns[..1];
      Users(read) == read && IsFull(read, TwoBlocks(), NoLimits(epoch)) && Priceable(read, TwoBlocks(), NoLimits(epoch))
    ensures BlockPrice(Bid(epoch, first, price), TwoBlocks(), NoLimits) == price
  {
    var read := Bid(epoch, first, price).txns[..1];
    assert read == [UserTxn(price, 0, Others)];
    assert UsersTo(read, 1) == UsersTo(read, 0) + [read[0]];
    assert EndInfosTo(read, 1) == EndInfosTo(read, 0);
  }

  lemma BidsAreALedger()
    ensures Ledger(Bids(), TwoBlocks(), NoLimits, FirstBid)
  {
    var c := Bids();
    forall i | 0 <= i < |c| ensures PricedAt(c, i, TwoBlocks(), NoLimits, FirstBid) {
      if i == 0 {
        assert c[0].txns[..0] == [];
      } else {
        BidPriced(c[i].epoch, c[i].first, c[i].txns[0].price);
        assert c[i] == Bid(c[i].epoch, c[i].first, c[i].txns[0].price);
        assert c[i].txns[..|c[i].txns| - 1] == c[i].txns[..1];
      }
    }
    assert forall i :: 1 <= i < |c| ==> Linked(c, i);
  }

  lemma Windows()
    ensures WellFormed(Bids()) && LastVersion(Bids()) == 8
    ensures BlockIndex(Bids(), 8) == 4 && BlockIndex(Bids(), 6) == 3
    ensures EpochStart(Bids(), 4) == 1 && EpochStart(Bids(), 3) == 1
  {
    var c := Bids();
    BidsAreALedger();
    assert Holds(c, 4, 8) && Holds(c, 3, 6);
    BlockIndexUnique(c, 8, 4);
    BlockIndexUnique(c, 6, 3);
    assert EpochStart(c, 1) == 1 && EpochStart(c, 2) == 1;
  }

  /** Two calls on a new estimator, one after the other. */
  method TwoCalls(cfg: GasConfig, onchain: nat -> OnChain, ghost price: Block -> nat, chain: seq<Block>, epoch: nat,
      v: nat, w: nat, later: nat)
    returns (first: GasEstimation, second: GasEstimation)
    requires cfg.Sanitized() && Ledger(chain, cfg, onchain, price) && v <= LastVersion(chain) && w <= LastVersion(chain)
    ensures var x := SlimLocked(cfg, onchain, price, Slim(None, 0, 0), chain, epoch, v, 0);
      first == x.answer && second == SlimLocked(cfg, onchain, price, x.state, chain, epoch, w, later).answer
  {
    var e := new Estimator(cfg, onchain, price);
    assert e.View() == Slim(None, 0, 0);
    first := e.EstimateLocked(chain, {}, epoch, v, 0);
    second := e.EstimateLocked(chain, {}, epoch, w, later);
  }

  /** A request at version 8 leaves the blocks priced 2 and 3 cached.  A request at version 6 that
      comes after it has expired reads the price 2 alone, where its own ledger gives 2 and 1. */
  method StaleCallerDiffers() returns (first: GasEstimation, second: GasEstimation)
    ensures Ledger(Bids(), TwoBlocks(), NoLimits, FirstBid) && LastVersion(Bids()) == 8
    ensures first == Reference(Bids(), TwoBlocks(), 0, FirstBid, 1, 8)
    ensures second.low == 2 && Reference(Bids(), TwoBlocks(), 0, FirstBid, 1, 6).low == 1
    ensures StaleCaller(Bids(), BlockIndex(Bids(), 6), 2, 2, 4)
  {
    BidsAreALedger();
    Windows();
    SecondIsShort();
    first, second := TwoCalls(TwoBlocks(), NoLimits, FirstBid, Bids(), 1, 8, 6, 10);
  }

  lemma SecondIsShort()
    ensures WellFormed(Bids()) && LastVersion(Bids()) == 8
    ensures var x := SlimLocked(TwoBlocks(), NoLimits, FirstBid, Slim(None, 0, 0), Bids(), 1, 8, 0);
      && x.answer == Reference(Bids(), TwoBlocks(), 0, FirstBid, 1, 8) && x.state.lo == 2 && x.state.hi == 4
      && SlimLocked(TwoBlocks(), NoLimits, FirstBid, x.state, Bids(), 1, 6, 10).answer.low == 2
    ensures Reference(Bids(), TwoBlocks(), 0, FirstBid, 1, 6).low == 1
  {
    Windows();
    ShortList();
  }

  lemma ShortList()
    ensures WellFormed(Bids()) && LastVersion(Bids()) == 8
    ensures Through(Bids(), TwoBlocks(), 0, FirstBid, 1, 6, 2, 4).low == 2
    ensures Reference(Bids(), TwoBlocks(), 0, FirstBid, 1, 6).low == 1
  {
    Windows();
    var c := Bids();
    assert Desc(c, FirstBid, 2, 3) == [2];
    assert Desc(c, FirstBid, 1, 2) == [1];
    assert Desc(c, FirstBid, 1, 3) == [2] + Desc(c, FirstBid, 1, 2);
    EstimateMeaning(TwoBlocks(), [2], 0);
    EstimateMeaning(TwoBlocks(), [2, 1], 0);
    assert 1 in Take([2, 1], 2) by { assert [2, 1][1] == 1; }
  }
}
