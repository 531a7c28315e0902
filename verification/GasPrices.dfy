/** How one block is priced and how a newest-first list of block prices becomes an estimate. */
module GasPrices {
  import opened Wrappers
  import opened Chain

  datatype StaticOverride = StaticOverride(low: nat, market: nat, aggressive: nat)

  datatype GasConfig = GasConfig(
    enabled: bool,
    staticOverride: Option<StaticOverride>,
    fullBlockTxns: nat,
    lowHistory: nat,
    marketHistory: nat,
    maxHistory: nat,                  // aggressive_block_history
    expirationMs: nat,
    reordering: bool,                 // incorporate_reordering_effects
    buckets: seq<nat>)                // mempool broadcast buckets
  {
    /** What the configuration sanitizer enforces at start-up. */
    predicate Sanitized() {
      && 0 < lowHistory <= maxHistory
      && 0 < marketHistory <= maxHistory
    }
  }

  /** The on-chain values the estimator reads once per epoch. */
  datatype OnChain = OnChain(minGas: nat, blockGasLimit: Option<nat>, spreadFactor: Option<nat>)

  datatype GasEstimation = GasEstimation(low: nat, market: nat, prioritized: nat) {
    predicate Ordered() { low <= market <= prioritized }
  }

  // ---------- buckets ----------

  function NextBucket(buckets: seq<nat>, price: nat): (r: nat)
    ensures RoundedUp(buckets, price, r)
  {
    if buckets == [] then price
    else if buckets[0] > price then
      assert FirstAbove(buckets, price, 0) && buckets[0] in buckets;
      buckets[0]
    else
      var r := NextBucket(buckets[1..], price);
      assert forall b :: b in buckets <==> b == buckets[0] || b in buckets[1..];
      assert r != price ==> exists i :: 0 <= i < |buckets| && FirstAbove(buckets, price, i) && buckets[i] == r by {
        if r != price {
          var i :| 0 <= i < |buckets[1..]| && FirstAbove(buckets[1..], price, i) && buckets[1..][i] == r;
          assert FirstAbove(buckets, price, i + 1);
        }
      }
      r
  }

  predicate FirstAbove(buckets: seq<nat>, price: nat, i: nat)
    requires i < |buckets|
  {
    buckets[i] > price && forall j :: 0 <= j < i ==> buckets[j] <= price
  }

  /** The first bucket above the price, or the price itself if there is none. */
  predicate RoundedUp(buckets: seq<nat>, price: nat, r: nat) {
    && r >= price
    && (r == price <==> forall b :: b in buckets ==> b <= price)
    && (r != price ==> exists i :: 0 <= i < |buckets| && FirstAbove(buckets, price, i) && buckets[i] == r)
  }

  /** With the buckets in ascending order the result is the smallest bucket above the price. */
  lemma {:induction false} NextBucketIsLeast(buckets: seq<nat>, price: nat, b: nat)
    requires forall i, j :: 0 <= i < j < |buckets| ==> buckets[i] <= buckets[j]
    requires b in buckets && b > price
    ensures price < NextBucket(buckets, price) <= b
  {
    if buckets[0] <= price {
      assert b in buckets[1..];
      NextBucketIsLeast(buckets[1..], price, b);
    }
  }

  // ---------- one block ----------

  /** The user transactions among the first `n`. */
  function UsersTo(txns: seq<Txn>, n: nat): (us: seq<Txn>)
    requires n <= |txns|
    ensures forall u :: u in us ==> u.UserTxn? && u in txns
  {
    if n == 0 then [] else UsersTo(txns, n - 1) + (if txns[n - 1].UserTxn? then [txns[n - 1]] else [])
  }

  function Users(txns: seq<Txn>): (us: seq<Txn>)
    ensures forall u :: u in us ==> u.UserTxn? && u in txns
  {
    UsersTo(txns, |txns|)
  }

  function EndInfosTo(txns: seq<Txn>, n: nat): seq<bool>
    requires n <= |txns|
  {
    if n == 0 then []
    else
      var t := txns[n - 1];
      EndInfosTo(txns, n - 1) + (if t.BlockEpilogue? && t.limitReached.Some? then [t.limitReached.value] else [])
  }

  function EndInfos(txns: seq<Txn>): seq<bool> { EndInfosTo(txns, |txns|) }

  lemma {:induction false} PrefixUsers(a: seq<Txn>, b: seq<Txn>, n: nat)
    requires n <= |a|
    ensures UsersTo(a + b, n) == UsersTo(a, n) && EndInfosTo(a + b, n) == EndInfosTo(a, n)
  {
    if n > 0 { PrefixUsers(a, b, n - 1); }
  }

  /** Users and end-of-block records are collected transaction by transaction, in order. */
  lemma {:induction false} UsersAppend(a: seq<Txn>, b: seq<Txn>)
    ensures Users(a + b) == Users(a) + Users(b) && EndInfos(a + b) == EndInfos(a) + EndInfos(b)
    decreases |b|
  {
    if b == [] {
      assert a + b == a;
    } else {
      var c, t := b[..|b| - 1], b[|b| - 1];
      UsersAppend(a, c);
      UsersSnoc(c, t);
      UsersSnoc(a + c, t);
      assert a + b == a + c + [t] && b == c + [t];
    }
  }

  lemma UsersSnoc(a: seq<Txn>, t: Txn)
    ensures Users(a + [t]) == Users(a) + Users([t]) && EndInfos(a + [t]) == EndInfos(a) + EndInfos([t])
  {
    PrefixUsers(a, [t], |a|);
    assert UsersTo([t], 0) == [] && EndInfosTo([t], 0) == [];
  }

  /** What one transaction contributes. */
  lemma UsersOne(t: Txn)
    ensures Users([t]) == match t case UserTxn(_, _, _) => [t] case _ => []
    ensures EndInfos([t]) == match t case BlockEpilogue(Some(limitReached)) => [limitReached] case _ => []
  {
    assert UsersTo([t], 0) == [] && EndInfosTo([t], 0) == [];
  }

  function GasUsed(users: seq<Txn>): nat
    requires forall u :: u in users ==> u.UserTxn?
  {
    if users == [] then 0 else users[0].gasUsed + GasUsed(users[1..])
  }

  /** The gas of a block is the sum over its transactions. */
  lemma {:induction false} GasUsedAdds(a: seq<Txn>, b: seq<Txn>)
    requires (forall u :: u in a ==> u.UserTxn?) && forall u :: u in b ==> u.UserTxn?
    ensures GasUsed(a + b) == GasUsed(a) + GasUsed(b)
    ensures forall u: Txn :: u.UserTxn? ==> GasUsed([u]) == u.gasUsed
  {
    forall u: Txn | u.UserTxn? ensures GasUsed([u]) == u.gasUsed { assert [u][1..] == []; }
    if a == [] {
      assert a + b == b;
    } else {
      GasUsedAdds(a[1..], b);
      assert (a + b)[1..] == a[1..] + b;
    }
  }

  function LowestPrice(users: seq<Txn>): (p: nat)
    requires users != [] && forall u :: u in users ==> u.UserTxn?
    ensures forall u :: u in users ==> p <= u.price
    ensures exists u :: u in users && p == u.price
  {
    if |users| == 1 then users[0].price
    else
      var rest := LowestPrice(users[1..]);
      if users[0].price < rest then users[0].price else rest
  }

  function CountTo(users: seq<Txn>, c: UseCase, n: nat): (k: nat)
    requires n <= |users| && forall u :: u in users ==> u.UserTxn?
    ensures k <= n
  {
    if n == 0 then 0 else CountTo(users, c, n - 1) + (if users[n - 1].useCase == c then 1 else 0)
  }

  /** More than half of the block's user transactions call one contract. */
  ghost predicate MajorityContract(users: seq<Txn>)
    requires forall u :: u in users ==> u.UserTxn?
  {
    exists c: UseCase :: c.ContractAddress? && 2 * CountTo(users, c, |users|) > |users|
  }

  lemma {:induction false} TwoCounts(users: seq<Txn>, c: UseCase, d: UseCase, n: nat)
    requires n <= |users| && (forall u :: u in users ==> u.UserTxn?) && c != d
    ensures CountTo(users, c, n) + CountTo(users, d, n) <= n
  {
    if n > 0 { TwoCounts(users, c, d, n - 1); }
  }

  function CountIn(counts: map<UseCase, nat>, c: UseCase): nat { if c in counts then counts[c] else 0 }

  ghost predicate CountsOk(counts: map<UseCase, nat>, users: seq<Txn>)
    requires forall u :: u in users ==> u.UserTxn?
  {
    (forall c :: CountIn(counts, c) == CountTo(users, c, |users|)) && forall c :: c in counts ==> counts[c] > 0
  }

  lemma {:induction false} CountPrefixSame(users: seq<Txn>, more: seq<Txn>, c: UseCase, n: nat)
    requires n <= |users| && users <= more && forall u :: u in more ==> u.UserTxn?
    ensures CountTo(more, c, n) == CountTo(users, c, n)
  {
    if n > 0 { CountPrefixSame(users, more, c, n - 1); }
  }

  lemma CountOneMore(counts: map<UseCase, nat>, users: seq<Txn>, u: Txn)
    requires (forall v :: v in users ==> v.UserTxn?) && u.UserTxn? && CountsOk(counts, users)
    ensures CountsOk(counts[u.useCase := CountIn(counts, u.useCase) + 1], users + [u])
  {
    var more := users + [u];
    forall c ensures CountTo(more, c, |more|) == CountTo(users, c, |users|) + (if u.useCase == c then 1 else 0) {
      CountPrefixSame(users, more, c, |users|);
    }
  }

  /** Which of several most frequent use cases the hash map yields does not matter: only one of them can
      be a majority. */
  lemma MajorityIsMax(counts: map<UseCase, nat>, users: seq<Txn>, max: UseCase)
    requires (forall u :: u in users ==> u.UserTxn?) && CountsOk(counts, users)
    requires max in counts && forall c :: c in counts ==> counts[c] <= counts[max]
    ensures MajorityContract(users) <==> max.ContractAddress? && 2 * counts[max] > |users|
  {
    assert CountIn(counts, max) == CountTo(users, max, |users|);
    forall c: UseCase | c.ContractAddress? && 2 * CountTo(users, c, |users|) > |users| ensures c == max {
      assert CountIn(counts, c) == CountTo(users, c, |users|);
      if c != max { TwoCounts(users, c, max, |users|); }
    }
  }

  /** One pass over the transactions of a block. */
  method GetGasPricesAndUsed(read: seq<Txn>, countMajority: bool)
    returns (users: seq<Txn>, ends: seq<bool>, majority: bool)
    ensures users == Users(read) && ends == EndInfos(read)
    ensures majority <==> countMajority && MajorityContract(users)
  {
    users, ends, majority := [], [], false;
    var counts: map<UseCase, nat> := map[];
    for i := 0 to |read|
      invariant users == UsersTo(read, i) && ends == EndInfosTo(read, i)
      invariant countMajority ==> CountsOk(counts, users)
    {
      match read[i] {
        case UserTxn(_, _, useCase) =>
          if countMajority {
            CountOneMore(counts, users, read[i]);
            counts := counts[useCase := CountIn(counts, useCase) + 1];
          }
          users := users + [read[i]];
        case BlockEpilogue(limitReached) =>
          if limitReached.Some? { ends := ends + [limitReached.value]; }
        case _ =>
      }
    }
    if countMajority {
      majority := MostFrequent(counts, users);
    }
  }

  method MostFrequent(counts: map<UseCase, nat>, users: seq<Txn>) returns (majority: bool)
    requires (forall u :: u in users ==> u.UserTxn?) && CountsOk(counts, users)
    ensures majority <==> MajorityContract(users)
  {
    if counts == map[] {
      assert forall c :: CountIn(counts, c) == CountTo(users, c, |users|);
      majority := false;
    } else {
      MaxExists(counts, counts.Keys);
      var max :| max in counts && forall c :: c in counts ==> counts[c] <= counts[max];
      MajorityIsMax(counts, users, max);
      majority := max.ContractAddress? && 2 * counts[max] > |users|;
    }
  }

  lemma {:induction false} MaxExists(counts: map<UseCase, nat>, keys: set<UseCase>)
    requires keys != {} && keys <= counts.Keys
    ensures exists max :: max in keys && forall c :: c in keys ==> counts[c] <= counts[max]
  {
    var x :| x in keys;
    var rest := keys - {x};
    if rest == {} {
      assert keys == {x};
    } else {
      MaxExists(counts, rest);
      var y :| y in rest && forall c :: c in rest ==> counts[c] <= counts[y];
      var max := if counts[x] < counts[y] then y else x;
      forall c | c in keys ensures counts[c] <= counts[max] { assert c == x || c in rest; }
    }
  }

  ghost predicate IsFull(read: seq<Txn>, cfg: GasConfig, oc: OnChain) {
    var users := Users(read);
    var ends := EndInfos(read);
    if cfg.reordering && oc.spreadFactor.Some? && MajorityContract(users) then false
    else if |users| >= cfg.fullBlockTxns then true
    else if ends != [] then ends[0]
    else oc.blockGasLimit.Some? && GasUsed(users) >= oc.blockGasLimit.value
  }

  /** The transactions the pricing pass reads: `last - first` of them from `first`, never past the
      ledger version. */
  function ReadTxns(block: Block, ledgerVersion: nat): seq<Txn>
    requires |block.txns| >= 1
  {
    var limit := block.Last() - block.first;
    if block.first > ledgerVersion || limit == 0 then []
    else
      var capped := if limit <= ledgerVersion - block.first + 1 then limit else ledgerVersion - block.first + 1;
      block.txns[..capped]
  }

  /** Neither the `assert_eq!` on epilogues nor the `unwrap` on the lowest price can panic. */
  ghost predicate Priceable(read: seq<Txn>, cfg: GasConfig, oc: OnChain) {
    && |EndInfos(read)| <= 1
    && (IsFull(read, cfg, oc) ==> Users(read) != [])
  }

  ghost function InclusionPrice(read: seq<Txn>, cfg: GasConfig, oc: OnChain): Option<nat>
    requires Priceable(read, cfg, oc)
  {
    if IsFull(read, cfg, oc) then Some(NextBucket(cfg.buckets, LowestPrice(Users(read)))) else None
  }

  /** The majority contract makes the block count as not full, whatever else holds. */
  ghost predicate Spread(read: seq<Txn>, cfg: GasConfig, oc: OnChain) {
    cfg.reordering && oc.spreadFactor.Some? && MajorityContract(Users(read))
  }

  /** The reasons, in order: a majority contract keeps a block from being full, enough transactions fill
      it, an end-of-block record decides, and otherwise the gas limit. */
  ghost predicate PricedFor(read: seq<Txn>, cfg: GasConfig, oc: OnChain, p: Option<nat>) {
    var users, ends := Users(read), EndInfos(read);
    && (Spread(read, cfg, oc) ==> p == None)
    && (!Spread(read, cfg, oc) && |users| >= cfg.fullBlockTxns ==> p.Some?)
    && (!Spread(read, cfg, oc) && |users| < cfg.fullBlockTxns && ends == [true] ==> p.Some?)
    && (!Spread(read, cfg, oc) && |users| < cfg.fullBlockTxns && ends == [false] ==> p == None)
    && (!Spread(read, cfg, oc) && |users| < cfg.fullBlockTxns && ends == [] ==>
        (p.Some? <==> oc.blockGasLimit.Some? && GasUsed(users) >= oc.blockGasLimit.value))
    && (p.Some? ==> exists u ::
          u in users && (forall v :: v in users ==> u.price <= v.price) && RoundedUp(cfg.buckets, u.price, p.value))
  }

  lemma InclusionPriceMeans(read: seq<Txn>, cfg: GasConfig, oc: OnChain)
    requires Priceable(read, cfg, oc)
    ensures PricedFor(read, cfg, oc, InclusionPrice(read, cfg, oc))
  {
    if |EndInfos(read)| == 1 { assert EndInfos(read) == [EndInfos(read)[0]]; }
    if IsFull(read, cfg, oc) {
      var low := LowestPrice(Users(read));
      var u :| u in Users(read) && low == u.price;
      assert RoundedUp(cfg.buckets, u.price, NextBucket(cfg.buckets, low));
    }
  }

  /** Three bids of 150 that use 40 gas each fill a block of at most 100 gas. */
  lemma GasFillsABlock()
    ensures var bid := UserTxn(150, 40, Others);
      var cfg, oc := GasConfig(true, None, 250, 1, 1, 1, 0, true, []), OnChain(1, Some(100), None);
      Priceable([bid, bid, bid], cfg, oc) && InclusionPrice([bid, bid, bid], cfg, oc) == Some(150)
  {
    var bid := UserTxn(150, 40, Others);
    UsersOne(bid);
    UsersAppend([bid], [bid]);
    UsersAppend([bid, bid], [bid]);
    assert [bid] + [bid] == [bid, bid] && [bid, bid] + [bid] == [bid, bid, bid];
    GasUsedAdds([bid], [bid]);
    GasUsedAdds([bid, bid], [bid]);
  }

  /** The price of a sealed block: a function of the block and its epoch alone. */
  ghost function BlockPrice(block: Block, cfg: GasConfig, onchain: nat -> OnChain): nat
    requires |block.txns| >= 1
    requires Priceable(block.txns[..|block.txns| - 1], cfg, onchain(block.epoch))
  {
    InclusionPrice(block.txns[..|block.txns| - 1], cfg, onchain(block.epoch)).GetOr(onchain(block.epoch).minGas)
  }

  /** The cap at the ledger version never bites on a block that ends by then. */
  lemma ReadWholeBlock(block: Block, ledgerVersion: nat)
    requires |block.txns| >= 1 && block.Last() <= ledgerVersion
    ensures ReadTxns(block, ledgerVersion) == block.txns[..|block.txns| - 1]
  {
  }

  /** A block's end-of-block record sits in its last transaction, which is never read: for such blocks
      fullness is decided by the number of transactions or by the gas limit alone. */
  lemma {:induction false} EpilogueIsNotRead(block: Block, ledgerVersion: nat)
    requires |block.txns| >= 1 && block.Last() <= ledgerVersion
    requires forall i :: 0 <= i < |block.txns| - 1 ==> !block.txns[i].BlockEpilogue?
    ensures EndInfos(ReadTxns(block, ledgerVersion)) == []
  {
    NoRecords(ReadTxns(block, ledgerVersion), |ReadTxns(block, ledgerVersion)|);
  }

  lemma {:induction false} NoRecords(txns: seq<Txn>, n: nat)
    requires n <= |txns| && forall i :: 0 <= i < |txns| ==> !txns[i].BlockEpilogue?
    ensures EndInfosTo(txns, n) == []
  {
    if n > 0 { NoRecords(txns, n - 1); }
  }

  /** A block in which every user paid at least the minimum is priced at least the minimum. */
  lemma BlockPriceAtLeastMinimum(block: Block, cfg: GasConfig, onchain: nat -> OnChain)
    requires |block.txns| >= 1
    requires Priceable(block.txns[..|block.txns| - 1], cfg, onchain(block.epoch))
    requires forall t :: t in block.txns && t.UserTxn? ==> t.price >= onchain(block.epoch).minGas
    ensures BlockPrice(block, cfg, onchain) >= onchain(block.epoch).minGas
  {
  }

  // ---------- order statistics ----------

  function Insert(x: nat, s: seq<nat>): (r: seq<nat>)
    ensures |r| == |s| + 1 && multiset(r) == multiset(s) + multiset{x}
  {
    if s == [] || x <= s[0] then [x] + s
    else
      assert s == [s[0]] + s[1..];
      [s[0]] + Insert(x, s[1..])
  }

  function Sort(s: seq<nat>): (r: seq<nat>)
    ensures |r| == |s| && multiset(r) == multiset(s)
  {
    if s == [] then []
    else
      assert s == [s[0]] + s[1..];
      Insert(s[0], Sort(s[1..]))
  }

  ghost predicate Sorted(s: seq<nat>) {
    forall i, j :: 0 <= i < j < |s| ==> s[i] <= s[j]
  }

  lemma ConsSorted(x: nat, s: seq<nat>)
    requires Sorted(s) && forall y :: y in s ==> x <= y
    ensures Sorted([x] + s)
  {
    var r := [x] + s;
    forall i, j | 0 <= i < j < |r| ensures r[i] <= r[j] {
      assert r[j] == s[j - 1] && s[j - 1] in s;
      if i > 0 { assert r[i] == s[i - 1]; }
    }
  }

  lemma InsertMembers(x: nat, s: seq<nat>, y: nat)
    requires y in Insert(x, s)
    ensures y == x || y in s
  {
  }

  lemma {:induction false} InsertSorted(x: nat, s: seq<nat>)
    requires Sorted(s)
    ensures Sorted(Insert(x, s))
  {
    if s == [] || x <= s[0] {
      ConsSorted(x, s);
    } else {
      InsertSorted(x, s[1..]);
      forall y | y in Insert(x, s[1..]) ensures s[0] <= y { InsertMembers(x, s[1..], y); }
      ConsSorted(s[0], Insert(x, s[1..]));
    }
  }

  lemma {:induction false} SortSorted(s: seq<nat>)
    ensures Sorted(Sort(s))
  {
    if s != [] {
      SortSorted(s[1..]);
      InsertSorted(s[0], Sort(s[1..]));
    }
  }

  function CountAtMost(s: seq<nat>, x: nat): (n: nat)
    ensures n <= |s|
  {
    if s == [] then 0 else (if s[0] <= x then 1 else 0) + CountAtMost(s[1..], x)
  }

  lemma {:induction false} CountInsert(y: nat, s: seq<nat>, x: nat)
    ensures CountAtMost(Insert(y, s), x) == (if y <= x then 1 else 0) + CountAtMost(s, x)
  {
    if s == [] || y <= s[0] {
      assert ([y] + s)[1..] == s;
    } else {
      CountInsert(y, s[1..], x);
      assert ([s[0]] + Insert(y, s[1..]))[1..] == Insert(y, s[1..]);
    }
  }

  lemma {:induction false} CountSort(s: seq<nat>, x: nat)
    ensures CountAtMost(Sort(s), x) == CountAtMost(s, x)
  {
    if s != [] {
      CountSort(s[1..], x);
      CountInsert(s[0], Sort(s[1..]), x);
    }
  }

  lemma {:induction false} CountPrefix(s: seq<nat>, i: nat, x: nat)
    requires i <= |s| && forall j :: 0 <= j < i ==> s[j] <= x
    ensures CountAtMost(s, x) >= i
  {
    if i > 0 { CountPrefix(s[1..], i - 1, x); }
  }

  lemma {:induction false} CountMonotone(s: seq<nat>, x: nat, y: nat)
    requires x <= y
    ensures CountAtMost(s, x) <= CountAtMost(s, y)
  {
    if s != [] { CountMonotone(s[1..], x, y); }
  }

  lemma {:induction false} CountStrictPrefix(s: seq<nat>, i: nat, x: nat)
    requires i <= |s| && Sorted(s) && (i < |s| ==> x < s[i])
    ensures CountAtMost(s, x) <= i
  {
    if s != [] {
      if i == 0 {
        CountStrictPrefix(s[1..], 0, x);
      } else {
        CountStrictPrefix(s[1..], i - 1, x);
      }
    }
  }

  /** The value at rank `i` of the sorted list has more than `i` entries at or below it. */
  lemma {:induction false} RankOfSorted(s: seq<nat>, i: nat)
    requires i < |s|
    ensures Sort(s)[i] in s && CountAtMost(s, Sort(s)[i]) >= i + 1
  {
    SortSorted(s);
    var r := Sort(s);
    assert r[i] in multiset(r);
    CountPrefix(r, i + 1, r[i]);
    CountSort(s, r[i]);
  }

  /** ... and no smaller number has that many. */
  lemma {:induction false} RankIsLeast(s: seq<nat>, i: nat, x: nat)
    requires i < |s| && x < Sort(s)[i]
    ensures CountAtMost(s, x) <= i
  {
    SortSorted(s);
    CountStrictPrefix(Sort(s), i, x);
    CountSort(s, x);
  }

  // ---------- from a price list to an estimate ----------

  function Take(s: seq<nat>, n: nat): (r: seq<nat>)
    ensures r <= s && (|r| == n || (|r| < n && r == s))
  {
    if n < |s| then s[..n] else s
  }

  function Min(s: seq<nat>): (m: nat)
    requires s != []
    ensures m in s && forall x :: x in s ==> m <= x
  {
    if |s| == 1 then s[0]
    else
      var rest := Min(s[1..]);
      assert forall x :: x in s <==> x == s[0] || x in s[1..];
      if s[0] < rest then s[0] else rest
  }

  function Max2(a: nat, b: nat): nat {
    if a < b then b else a
  }

  function DefaultEstimation(cfg: GasConfig, minGas: nat): (g: GasEstimation)
    ensures g.Ordered() && g.low == g.market == minGas && RoundedUp(cfg.buckets, minGas, g.prioritized)
  {
    GasEstimation(minGas, minGas, NextBucket(cfg.buckets, minGas))
  }

  function EstimateOf(cfg: GasConfig, prices: seq<nat>): GasEstimation
    requires cfg.Sanitized() && prices != []
  {
    var low := Min(Take(prices, cfg.lowHistory));
    var latest := Sort(Take(prices, cfg.marketHistory));
    var market := Max2(low, latest[|latest| / 2]);
    var p90 := Max2(market, Sort(prices)[|prices| * 9 / 10]);
    GasEstimation(low, market, NextBucket(cfg.buckets, p90))
  }

  /** The smallest number from `from` on with more than `rank` of the prices at or below it. */
  ghost predicate IsRank(s: seq<nat>, rank: nat, from: nat, p: nat) {
    && from <= p && CountAtMost(s, p) > rank
    && forall x: nat :: from <= x < p ==> CountAtMost(s, x) <= rank
  }

  /** The larger of `from` and the entry at a rank of the sorted list. */
  lemma {:induction false} SortedIsRank(s: seq<nat>, rank: nat, from: nat)
    requires rank < |s|
    ensures IsRank(s, rank, from, Max2(from, Sort(s)[rank]))
  {
    var p := Max2(from, Sort(s)[rank]);
    RankOfSorted(s, rank);
    CountMonotone(s, Sort(s)[rank], p);
    forall x: nat | from <= x < p ensures CountAtMost(s, x) <= rank { RankIsLeast(s, rank, x); }
  }

  /** What the three numbers mean for the list they come from: the lowest of the low window, the median
      of the market window but not below that, and the ninth decile of all but not below that, rounded
      up to a bucket. */
  ghost predicate Estimates(cfg: GasConfig, prices: seq<nat>, g: GasEstimation) {
    var early, window := Take(prices, cfg.lowHistory), Take(prices, cfg.marketHistory);
    && g.low in early && (forall p :: p in early ==> g.low <= p)
    && IsRank(window, |window| / 2, g.low, g.market)
    && (exists p :: IsRank(prices, |prices| * 9 / 10, g.market, p) && RoundedUp(cfg.buckets, p, g.prioritized))
  }

  lemma {:induction false} EstimateMeaning(cfg: GasConfig, prices: seq<nat>, floor: nat)
    requires cfg.Sanitized() && prices != []
    ensures var g := EstimateOf(cfg, prices);
      && g.Ordered() && Estimates(cfg, prices, g)
      && ((forall p :: p in prices ==> p >= floor) ==> g.low >= floor)
  {
    var g := EstimateOf(cfg, prices);
    var early, window := Take(prices, cfg.lowHistory), Take(prices, cfg.marketHistory);
    assert g.low in prices by {
      var i :| 0 <= i < |early| && early[i] == g.low;
      assert prices[i] == g.low;
    }
    SortedIsRank(window, |window| / 2, g.low);
    SortedIsRank(prices, |prices| * 9 / 10, g.market);
    assert RoundedUp(cfg.buckets, Max2(g.market, Sort(prices)[|prices| * 9 / 10]), g.prioritized);
  }

  /** The rank determines the number, so the meaning determines the estimate. */
  lemma RankIsUnique(s: seq<nat>, rank: nat, from: nat, p: nat, q: nat)
    requires IsRank(s, rank, from, p) && IsRank(s, rank, from, q)
    ensures p == q
  {
  }
}
