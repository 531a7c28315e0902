/** The gas price estimator: a backwards walk over the ledger that stops at the first cached block,
    reads the rest from the cache, and evicts the oldest entries. */
module GasEstimator {
  import opened Wrappers
  import opened Chain
  import opened GasPrices
  import opened GasCache

  // ---------- the cache-free reference ----------

  /** Block `i` can be priced without a panic, and `price` is its price. */
  ghost predicate PricedAt(chain: seq<Block>, i: nat, cfg: GasConfig, onchain: nat -> OnChain, price: Block -> nat)
    requires i < |chain|
  {
    && |chain[i].txns| >= 1
    && Priceable(chain[i].txns[..|chain[i].txns| - 1], cfg, onchain(chain[i].epoch))
    && price(chain[i]) == BlockPrice(chain[i], cfg, onchain)
  }

  ghost predicate Ledger(chain: seq<Block>, cfg: GasConfig, onchain: nat -> OnChain, price: Block -> nat) {
    WellFormed(chain) && forall i :: 0 <= i < |chain| ==> PricedAt(chain, i, cfg, onchain, price)
  }

  /** One past the newest complete block before the block `k` that holds the ledger version; the
      genesis block has nothing before it and counts itself. */
  function WindowEnd(k: nat): nat { if k == 0 then 1 else k }

  /** The oldest block the estimate for block `k` looks at. */
  function WindowStart(chain: seq<Block>, k: nat, n: nat): (s: nat)
    requires k < |chain|
    ensures s <= WindowEnd(k)
  {
    var start := EpochStart(chain, k);
    if WindowEnd(k) - n > start then WindowEnd(k) - n else start
  }

  function EstimateOrDefault(cfg: GasConfig, minGas: nat, list: seq<nat>): GasEstimation
    requires cfg.Sanitized()
  {
    if list == [] then DefaultEstimation(cfg, minGas) else EstimateOf(cfg, list)
  }

  /** The newest-first prices of the whole window, read from the ledger alone. */
  ghost function ReferenceList(chain: seq<Block>, n: nat, price: Block -> nat, epoch: nat, k: nat): seq<nat>
    requires WellFormed(chain) && k < |chain|
  {
    if chain[k].epoch != epoch then [] else Desc(chain, price, WindowStart(chain, k, n), WindowEnd(k))
  }

  /** The estimate recomputed from the ledger alone. */
  ghost function Reference(chain: seq<Block>, cfg: GasConfig, minGas: nat, price: Block -> nat, epoch: nat,
      ledgerVersion: nat): GasEstimation
    requires cfg.Sanitized() && WellFormed(chain) && ledgerVersion <= LastVersion(chain)
  {
    EstimateOrDefault(cfg, minGas, ReferenceList(chain, cfg.maxHistory, price, epoch, BlockIndex(chain, ledgerVersion)))
  }

  /** The list holds the prices of the complete blocks of the epoch before block `k`, newest first: `n` of
      them, or all there are. */
  ghost predicate ListsWindow(chain: seq<Block>, n: nat, price: Block -> nat, epoch: nat, k: nat, list: seq<nat>)
    requires k < |chain|
  {
    && |list| <= n && |list| <= k
    && (forall i :: 0 <= i < |list| ==> list[i] == price(chain[k - 1 - i]) && chain[k - 1 - i].epoch == epoch)
    && (|list| == n || |list| == k || chain[k - 1 - |list|].epoch != epoch)
  }

  lemma {:induction false} ReferenceListMeans(chain: seq<Block>, n: nat, price: Block -> nat, epoch: nat, k: nat)
    requires WellFormed(chain) && k < |chain|
    ensures chain[k].epoch != epoch ==> ReferenceList(chain, n, price, epoch, k) == []
    ensures chain[k].epoch == epoch && k > 0 ==>
      ListsWindow(chain, n, price, epoch, k, ReferenceList(chain, n, price, epoch, k))
  {
    if chain[k].epoch == epoch && k > 0 {
      var list, a := ReferenceList(chain, n, price, epoch, k), WindowStart(chain, k, n);
      forall i | 0 <= i < |list| ensures list[i] == price(chain[k - 1 - i]) { DescAt(chain, price, a, k, i); }
    }
  }

  /** What the reference is: nothing to go by gives the default, and otherwise the three numbers are the
      ranks of that list. */
  lemma {:induction false} ReferenceMeans(chain: seq<Block>, cfg: GasConfig, minGas: nat, price: Block -> nat,
      epoch: nat, v: nat)
    requires cfg.Sanitized() && WellFormed(chain) && v <= LastVersion(chain)
    ensures var list := ReferenceList(chain, cfg.maxHistory, price, epoch, BlockIndex(chain, v));
      EstimatesOrDefault(cfg, minGas, list, Reference(chain, cfg, minGas, price, epoch, v))
  {
    EstimateOrDefaultMeans(cfg, minGas, ReferenceList(chain, cfg.maxHistory, price, epoch, BlockIndex(chain, v)));
  }

  ghost predicate EstimatesOrDefault(cfg: GasConfig, minGas: nat, list: seq<nat>, r: GasEstimation) {
    if list == [] then r.low == r.market == minGas && RoundedUp(cfg.buckets, minGas, r.prioritized)
    else Estimates(cfg, list, r)
  }

  lemma EstimateOrDefaultMeans(cfg: GasConfig, minGas: nat, list: seq<nat>)
    requires cfg.Sanitized()
    ensures EstimatesOrDefault(cfg, minGas, list, EstimateOrDefault(cfg, minGas, list))
  {
    if list != [] { EstimateMeaning(cfg, list, 0); }
  }

  /** Every committed user transaction paid at least its epoch's minimum. */
  ghost predicate PaidMinimum(chain: seq<Block>, onchain: nat -> OnChain) {
    forall i :: 0 <= i < |chain| ==> PaidAt(chain, i, onchain)
  }

  ghost predicate PaidAt(chain: seq<Block>, i: nat, onchain: nat -> OnChain)
    requires i < |chain|
  {
    forall t :: t in chain[i].txns && t.UserTxn? ==> t.price >= onchain(chain[i].epoch).minGas
  }

  // ---------- what a call reads and leaves, given the cached run `lo .. hi` ----------

  function ListStart(chain: seq<Block>, k: nat, n: nat, lo: nat, hi: nat): nat
    requires k < |chain|
  {
    var end := WindowEnd(k);
    if lo < hi && lo < end then (if end - n > lo then end - n else lo) else WindowStart(chain, k, n)
  }

  /** The list every caller works with, stale or not, when the cached entries are the blocks `lo .. hi`. */
  ghost function CallerList(chain: seq<Block>, n: nat, price: Block -> nat, epoch: nat, k: nat, lo: nat,
      hi: nat): seq<nat>
    requires WellFormed(chain) && k < |chain|
  {
    if chain[k].epoch != epoch || ListStart(chain, k, n, lo, hi) > WindowEnd(k) then []
    else Desc(chain, price, ListStart(chain, k, n, lo, hi), WindowEnd(k))
  }

  ghost function Through(chain: seq<Block>, cfg: GasConfig, minGas: nat, price: Block -> nat, epoch: nat,
      ledgerVersion: nat, lo: nat, hi: nat): GasEstimation
    requires cfg.Sanitized() && WellFormed(chain) && ledgerVersion <= LastVersion(chain)
  {
    EstimateOrDefault(cfg, minGas,
      CallerList(chain, cfg.maxHistory, price, epoch, BlockIndex(chain, ledgerVersion), lo, hi))
  }

  /** The run cached after a call that asked about block `k`. */
  function LoAfter(chain: seq<Block>, n: nat, epoch: nat, k: nat, lo: nat, hi: nat): nat
    requires k < |chain|
  {
    var start, end := WindowStart(chain, k, n), WindowEnd(k);
    if chain[k].epoch != epoch || start == end then lo
    else if lo == hi then start
    else if hi < end && end - n > lo then end - n
    else lo
  }

  function HiAfter(chain: seq<Block>, n: nat, epoch: nat, k: nat, lo: nat, hi: nat): nat
    requires k < |chain|
  {
    if chain[k].epoch == epoch && WindowStart(chain, k, n) < WindowEnd(k) && (lo == hi || hi < WindowEnd(k))
    then WindowEnd(k) else hi
  }

  // ---------- the estimator without a price map ----------

  datatype Remembered = Remembered(epoch: nat, now: nat, estimate: GasEstimation)

  /** The last result, and the bounds of the cached run. */
  datatype Slim = Slim(last: Option<Remembered>, lo: nat, hi: nat)

  datatype Served = Served(state: Slim, answer: GasEstimation)

  /** The time since `from`, none if the clock reads earlier, is less than the expiration time. */
  predicate Unexpired(cfg: GasConfig, from: nat, now: nat)
    ensures Unexpired(cfg, from, now) <==> now < from + cfg.expirationMs && 0 < cfg.expirationMs
  {
    (if now < from then 0 else now - from) < cfg.expirationMs
  }

  function SlimCached(cfg: GasConfig, st: Slim, epoch: nat, now: nat): Option<GasEstimation> {
    if st.last.Some? && st.last.value.epoch == epoch && Unexpired(cfg, st.last.value.now, now)
    then Some(st.last.value.estimate) else None
  }

  /** A recomputation, from the ledger and the bounds of the run. */
  ghost function SlimRecompute(cfg: GasConfig, onchain: nat -> OnChain, price: Block -> nat, chain: seq<Block>,
      epoch: nat, v: nat, now: nat, lo: nat, hi: nat): Served
    requires cfg.Sanitized() && WellFormed(chain) && v <= LastVersion(chain)
  {
    var k, r := BlockIndex(chain, v), Through(chain, cfg, onchain(epoch).minGas, price, epoch, v, lo, hi);
    Served(
      Slim(Some(Remembered(epoch, now, r)),
        LoAfter(chain, cfg.maxHistory, epoch, k, lo, hi),
        HiAfter(chain, cfg.maxHistory, epoch, k, lo, hi)),
      r)
  }

  /** The section under the write lock: an unexpired result, or a recomputation that starts from nothing
      when the epoch has changed. */
  ghost function SlimLocked(cfg: GasConfig, onchain: nat -> OnChain, price: Block -> nat, st: Slim, chain: seq<Block>,
      epoch: nat, v: nat, now: nat): Served
    requires cfg.Sanitized() && WellFormed(chain) && v <= LastVersion(chain)
  {
    var cached, same := SlimCached(cfg, st, epoch, now), st.last.Some? && st.last.value.epoch == epoch;
    if cached.Some? then Served(st, cached.value)
    else SlimRecompute(cfg, onchain, price, chain, epoch, v, now, if same then st.lo else 0, if same then st.hi else 0)
  }

  /** The caller asks about a block inside the cached run whose window begins before it. */
  predicate StaleCaller(chain: seq<Block>, k: nat, n: nat, lo: nat, hi: nat)
    requires k < |chain|
  {
    WindowStart(chain, k, n) < lo < WindowEnd(k) <= hi
  }

  lemma EarlierEpochs(chain: seq<Block>, k: nat)
    requires WellFormed(chain) && k < |chain|
    ensures forall x :: 0 <= x < EpochStart(chain, k) ==> chain[x].epoch < chain[k].epoch
  {
    var s := EpochStart(chain, k);
    forall x | 0 <= x < s ensures chain[x].epoch < chain[k].epoch {
      assert Linked(chain, s);
      EpochsOrdered(chain, x, s - 1);
    }
  }

  lemma SameEpochStart(chain: seq<Block>, i: nat, j: nat)
    requires WellFormed(chain) && i < |chain| && j < |chain| && chain[i].epoch == chain[j].epoch
    ensures EpochStart(chain, i) == EpochStart(chain, j)
  {
    var a, b := EpochStart(chain, i), EpochStart(chain, j);
    EarlierEpochs(chain, i);
    EarlierEpochs(chain, j);
  }

  lemma ListStartExactIff(m: Prices, chain: seq<Block>, k: nat, n: nat, lo: nat, hi: nat)
    requires WellFormed(chain) && k < |chain| && n >= 1
    requires GapFree(m, chain, chain[k].epoch, n, lo, hi)
    ensures WindowStart(chain, k, n) <= ListStart(chain, k, n, lo, hi) <= WindowEnd(k)
    ensures ListStart(chain, k, n, lo, hi) == WindowStart(chain, k, n) <==> !StaleCaller(chain, k, n, lo, hi)
  {
    if lo < hi { SameEpochStart(chain, k, hi - 1); }
  }

  /** The list read through the cache is the reference list if and only if the caller is not stale. */
  lemma {:induction false} ListExactIff(m: Prices, chain: seq<Block>, price: Block -> nat, k: nat, n: nat, lo: nat,
      hi: nat)
    requires WellFormed(chain) && k < |chain| && n >= 1
    requires GapFree(m, chain, chain[k].epoch, n, lo, hi)
    ensures CallerList(chain, n, price, chain[k].epoch, k, lo, hi) == ReferenceList(chain, n, price, chain[k].epoch, k)
         <==> !StaleCaller(chain, k, n, lo, hi)
  {
    ListStartExactIff(m, chain, k, n, lo, hi);
    assert |Desc(chain, price, ListStart(chain, k, n, lo, hi), WindowEnd(k))|
      == WindowEnd(k) - ListStart(chain, k, n, lo, hi);
    assert |Desc(chain, price, WindowStart(chain, k, n), WindowEnd(k))| == WindowEnd(k) - WindowStart(chain, k, n);
  }

  /** A caller at or past the newest cached block is never stale. */
  lemma FreshAtTop(m: Prices, chain: seq<Block>, k: nat, n: nat, lo: nat, hi: nat)
    requires WellFormed(chain) && k < |chain| && n >= 1
    requires GapFree(m, chain, chain[k].epoch, n, lo, hi) && hi <= WindowEnd(k)
    ensures !StaleCaller(chain, k, n, lo, hi)
  {
  }

  lemma PaidMinimumBefore(old_: seq<Block>, new_: seq<Block>, onchain: nat -> OnChain)
    requires Grows(old_, new_)
    ensures PaidMinimum(new_, onchain) ==> PaidMinimum(old_, onchain)
  {
    if PaidMinimum(new_, onchain) {
      forall i | 0 <= i < |old_| ensures PaidAt(old_, i, onchain) {
        assert PaidAt(new_, i, onchain);
        assert old_[i].txns <= new_[i].txns && old_[i].epoch == new_[i].epoch by {
          if i < |old_| - 1 { assert Sealed(old_, i); }
        }
      }
    }
  }

  /** The block that holds a version never moves back as the ledger and the version grow. */
  lemma BlockIndexMonotone(old_: seq<Block>, new_: seq<Block>, v: nat, w: nat)
    requires WellFormed(old_) && WellFormed(new_) && Grows(old_, new_)
    requires v <= LastVersion(old_) && v <= w <= LastVersion(new_)
    ensures BlockIndex(old_, v) <= BlockIndex(new_, w)
  {
    var i, j := BlockIndex(old_, v), BlockIndex(new_, w);
    assert new_[i].first == old_[i].first by { if i < |old_| - 1 { assert Sealed(old_, i); } }
    if j < i { VersionsIncrease(new_, j, i); }
  }

  datatype Span = Span(first: nat, last: nat)

  /** `blocks` lists, newest first, uncached sealed blocks of the epoch ending at block `top - 1`. */
  ghost predicate Walked(m: Prices, chain: seq<Block>, epoch: nat, ledgerVersion: nat, top: nat, blocks: seq<Span>)
    requires WellFormed(chain)
  {
    && |blocks| <= top <= |chain|
    && forall j :: 0 <= j < |blocks| ==>
      && blocks[j].first == chain[top - 1 - j].first && blocks[j].last == chain[top - 1 - j].Last()
      && chain[top - 1 - j].epoch == epoch && Sealed(chain, top - 1 - j)
      && blocks[j].last <= ledgerVersion && Key(epoch, blocks[j].last) !in m
  }

  lemma WalkedEpochs(m: Prices, chain: seq<Block>, epoch: nat, ledgerVersion: nat, top: nat, blocks: seq<Span>)
    requires WellFormed(chain) && Walked(m, chain, epoch, ledgerVersion, top, blocks)
    ensures forall i :: top - |blocks| <= i < top ==>
      chain[i].epoch == epoch && Key(epoch, chain[i].Last() as nat) !in m
  {
    forall i | top - |blocks| <= i < top ensures chain[i].epoch == epoch && Key(epoch, chain[i].Last() as nat) !in m {
      var b := blocks[top - 1 - i];
      assert b.last == chain[i].Last();
    }
  }

  lemma WalkedAt(m: Prices, chain: seq<Block>, epoch: nat, ledgerVersion: nat, top: nat, blocks: seq<Span>, j: nat)
    requires WellFormed(chain) && Walked(m, chain, epoch, ledgerVersion, top, blocks) && j < |blocks|
    ensures 0 <= top - 1 - j < |chain| && chain[top - 1 - j].epoch == epoch && Sealed(chain, top - 1 - j)
    ensures blocks[j].first == chain[top - 1 - j].first && blocks[j].last == chain[top - 1 - j].Last() <= ledgerVersion
  {
    var b := blocks[j];
    assert b.last <= ledgerVersion;
  }

  lemma WalkedAppend(m: Prices, chain: seq<Block>, epoch: nat, ledgerVersion: nat, top: nat, blocks: seq<Span>)
    requires WellFormed(chain) && Walked(m, chain, epoch, ledgerVersion, top, blocks) && |blocks| < top
    requires var b := chain[top - 1 - |blocks|];
      && b.epoch == epoch && Sealed(chain, top - 1 - |blocks|)
      && b.Last() <= ledgerVersion && Key(epoch, b.Last() as nat) !in m
    ensures var b := chain[top - 1 - |blocks|];
      Walked(m, chain, epoch, ledgerVersion, top, blocks + [Span(b.first, b.Last())])
  {
  }

  /** One step of the walk: the block that ends right before the ones already taken. */
  lemma {:induction false} StepBack(chain: seq<Block>, v: nat, pos: nat)
    requires WellFormed(chain) && v <= LastVersion(chain)
    requires 1 <= pos <= WindowEnd(BlockIndex(chain, v))
    requires EpochStart(chain, BlockIndex(chain, v)) <= pos
    ensures var k := BlockIndex(chain, v); var b := chain[pos - 1];
      && b.Last() <= v && BlockIndex(chain, b.Last()) == pos - 1 && Sealed(chain, pos - 1)
      && (b.epoch != chain[k].epoch ==> EpochStart(chain, k) == pos)
      && (b.epoch == chain[k].epoch ==> EpochStart(chain, k) <= pos - 1)
      && (pos == 1 ==> b.first == 0)
      && (pos > 1 ==> b.first - 1 == chain[pos - 2].Last())
      && (b.first <= 1 && b.epoch == chain[k].epoch ==> EpochStart(chain, k) == pos - 1)
  {
    var k, b := BlockIndex(chain, v), chain[pos - 1];
    var start := EpochStart(chain, k);
    EarlierEpochs(chain, k);
    if pos > 1 { assert Linked(chain, pos - 1); }
    if pos - 1 < k { VersionsIncrease(chain, pos - 1, k); }
    if pos - 1 < |chain| - 1 { VersionsIncrease(chain, pos - 1, |chain| - 1); }
    BlockIndexUnique(chain, b.Last(), pos - 1);
    if pos > 2 { VersionsIncrease(chain, 0, pos - 2); }
  }

  // ---------- one call over a gap-free cache ----------

  /** What the walk established about a call: it took blocks `pos .. end`, none of them cached, and
      stopped at a cached block, at the history limit or at the start of the epoch. */
  ghost predicate WalkOutcome(m: Prices, chain: seq<Block>, k: nat, n: nat, pos: nat, hit: bool)
    requires WellFormed(chain) && k < |chain|
  {
    var e, end := chain[k].epoch, WindowEnd(k);
    && EpochStart(chain, k) <= pos <= end <= |chain| && end - pos <= n
    && (forall i :: pos <= i < end ==> Key(e, chain[i].Last() as nat) !in m && chain[i].epoch == e)
    && (hit ==> 0 < pos && end - pos < n && Key(e, chain[pos - 1].Last() as nat) in m)
    && (hit || end - pos == n || pos == EpochStart(chain, k))
  }

  /** Why the walk ended after `count` blocks: at a cached block, at the history limit, at the start of the
      epoch, or at a block that cannot be read. */
  ghost predicate WalkStops(chain: seq<Block>, k: nat, n: nat, unreadable: set<nat>, top: nat, count: nat, hit: bool)
    requires k < |chain|
  {
    && top == WindowEnd(k) && EpochStart(chain, k) <= top - count
    && (|| hit || count == n || top - count == EpochStart(chain, k)
        || (0 < top - count <= |chain| && chain[top - count - 1].Last() in unreadable))
  }

  /** Where the walked blocks lie relative to the cached run `lo .. hi`. */
  lemma {:induction false} WalkVersusRun(m: Prices, chain: seq<Block>, k: nat, n: nat, lo: nat, hi: nat, pos: nat,
      hit: bool)
    requires WellFormed(chain) && k < |chain| && n >= 1
    requires GapFree(m, chain, chain[k].epoch, n, lo, hi) && WalkOutcome(m, chain, k, n, pos, hit)
    ensures lo < hi && pos < WindowEnd(k) ==> hi <= pos || WindowEnd(k) <= lo
    ensures hit ==> lo < pos <= hi
    ensures lo < hi ==> EpochStart(chain, k) <= lo && (hi - lo == n || lo == EpochStart(chain, k))
  {
    var e, end := chain[k].epoch, WindowEnd(k);
    if lo < hi {
      SameEpochStart(chain, k, hi - 1);
      RunKeyIndex(chain, e, lo, hi, if pos < lo then lo else if pos < end then pos else lo);
    }
    if hit { RunKeyIndex(chain, e, lo, hi, pos - 1); }
  }

  /** The list a call works with: the walked blocks `pos .. end` and, after a hit, the cached ones below. */
  ghost function Assembled(m: Prices, chain: seq<Block>, price: Block -> nat, e: nat, pos: nat, end: nat, hit: bool,
      n: nat): seq<nat>
    requires WellFormed(chain) && pos <= end <= |chain| && end - pos <= n && (hit ==> 0 < pos)
  {
    Desc(chain, price, pos, end) + (if hit then CachedTail(m, e, chain[pos - 1].Last(), n - (end - pos)) else [])
  }

  /** At most `n` cached prices from the block that ends at `lookup` down. */
  function CachedTail(m: Prices, e: nat, lookup: nat, n: nat): seq<nat> {
    Take(RangeRev(m, e, lookup), n)
  }

  /** Over a gap-free cache that list is one run of blocks. */
  lemma {:induction false} CollectedList(m: Prices, m': Prices, chain: seq<Block>, price: Block -> nat, k: nat,
      n: nat, lo: nat, hi: nat, pos: nat, hit: bool)
    requires WellFormed(chain) && k < |chain| && n >= 1
    requires GapFree(m, chain, chain[k].epoch, n, lo, hi) && WalkOutcome(m, chain, k, n, pos, hit)
    requires Sound(m', chain, chain[k].epoch, price)
    requires m'.Keys == m.Keys + RunKeys(chain, chain[k].epoch, pos, WindowEnd(k))
    ensures ListStart(chain, k, n, lo, hi) <= WindowEnd(k)
    ensures Assembled(m', chain, price, chain[k].epoch, pos, WindowEnd(k), hit, n)
         == Desc(chain, price, ListStart(chain, k, n, lo, hi), WindowEnd(k))
  {
    var e, end := chain[k].epoch, WindowEnd(k);
    WalkVersusRun(m, chain, k, n, lo, hi, pos, hit);
    if hit {
      forall i | 0 <= i < pos ensures Key(e, chain[i].Last() as nat) in m' <==> lo <= i {
        RunKeyIndex(chain, e, lo, hi, i);
        RunKeyIndex(chain, e, pos, end, i);
      }
      RangeOfRun(m', chain, e, price, lo, pos);
      var from := ListStart(chain, k, n, lo, hi);
      DescSplit(chain, price, lo, from, pos);
      DescSplit(chain, price, from, pos, end);
      assert Take(Desc(chain, price, lo, pos), n - (end - pos)) == Desc(chain, price, from, pos);
    } else {
      assert ListStart(chain, k, n, lo, hi) == pos;
    }
  }

  /** The cached run after the call. */
  function NextLo(lo: nat, hi: nat, pos: nat, end: nat, n: nat): nat {
    if pos == end then lo
    else if lo == hi then pos
    else if hi < end && end - n > lo then end - n
    else lo
  }

  function NextHi(lo: nat, hi: nat, pos: nat, end: nat): nat {
    if pos < end && (lo == hi || hi < end) then end else hi
  }

  ghost function Evicted(keys: set<Key>, n: nat): set<Key> {
    DropFirst(keys, if |keys| > n then |keys| - n else 0)
  }

  lemma {:induction false} EvictOneRun(chain: seq<Block>, e: nat, n: nat, lo: nat, hi: nat)
    requires WellFormed(chain) && lo <= hi <= |chain|
    ensures Evicted(RunKeys(chain, e, lo, hi), n) == RunKeys(chain, e, if hi - n > lo then hi - n else lo, hi)
  {
    var t := if hi - n > lo then hi - n - lo else 0;
    RunSize(chain, e, lo, hi);
    DropPrefix(chain, e, lo, hi, hi, hi, t);
    assert RunKeys(chain, e, lo, hi) + RunKeys(chain, e, hi, hi) == RunKeys(chain, e, lo, hi);
    assert RunKeys(chain, e, lo + t, hi) + RunKeys(chain, e, hi, hi) == RunKeys(chain, e, lo + t, hi);
  }

  lemma {:induction false} EvictJoinedRuns(chain: seq<Block>, e: nat, n: nat, lo: nat, mid: nat, hi: nat)
    requires WellFormed(chain) && lo <= mid <= hi <= |chain|
    ensures Evicted(RunKeys(chain, e, lo, mid) + RunKeys(chain, e, mid, hi), n)
         == RunKeys(chain, e, if hi - n > lo then hi - n else lo, hi)
  {
    RunJoin(chain, e, lo, mid, hi);
    EvictOneRun(chain, e, n, lo, hi);
  }

  lemma {:induction false} EvictOlderRun(chain: seq<Block>, e: nat, n: nat, a: nat, b: nat, c: nat, d: nat)
    requires WellFormed(chain) && a <= b <= c <= d <= |chain| && d - c == n
    ensures Evicted(RunKeys(chain, e, a, b) + RunKeys(chain, e, c, d), n) == RunKeys(chain, e, c, d)
  {
    RunsDisjoint(chain, e, a, b, c, d);
    DropPrefix(chain, e, a, b, c, d, b - a);
    assert RunKeys(chain, e, b, b) + RunKeys(chain, e, c, d) == RunKeys(chain, e, c, d);
  }

  /** Eviction turns the old run plus the walked blocks into one run again. */
  lemma {:induction false} EvictedRun(m: Prices, keys: set<Key>, chain: seq<Block>, k: nat, n: nat, lo: nat, hi: nat,
      pos: nat, hit: bool)
    requires WellFormed(chain) && k < |chain| && n >= 1
    requires GapFree(m, chain, chain[k].epoch, n, lo, hi) && WalkOutcome(m, chain, k, n, pos, hit)
    requires keys == m.Keys + RunKeys(chain, chain[k].epoch, pos, WindowEnd(k))
    ensures var lo', hi' := NextLo(lo, hi, pos, WindowEnd(k), n), NextHi(lo, hi, pos, WindowEnd(k));
      lo' <= hi' <= |chain| && Evicted(keys, n) == RunKeys(chain, chain[k].epoch, lo', hi')
  {
    var e, end := chain[k].epoch, WindowEnd(k);
    WalkVersusRun(m, chain, k, n, lo, hi, pos, hit);
    EvictRuns(chain, e, n, lo, hi, pos, end);
  }

  /** The old run `lo .. hi` and the walked blocks `pos .. end`, in the positions a walk can leave them. */
  lemma {:induction false} EvictRuns(chain: seq<Block>, e: nat, n: nat, lo: nat, hi: nat, pos: nat, end: nat)
    requires WellFormed(chain) && lo <= hi <= |chain| && pos <= end <= |chain| && hi - lo <= n && end - pos <= n
    requires pos < end && lo < hi ==>
      || hi == pos
      || (hi < pos && end - pos == n)
      || (end <= lo && hi - lo == n)
    ensures var lo', hi' := NextLo(lo, hi, pos, end, n), NextHi(lo, hi, pos, end);
      && lo' <= hi' <= |chain|
      && Evicted(RunKeys(chain, e, lo, hi) + RunKeys(chain, e, pos, end), n) == RunKeys(chain, e, lo', hi')
  {
    var older, walked := RunKeys(chain, e, lo, hi), RunKeys(chain, e, pos, end);
    if pos == end {
      assert older + walked == older;
      EvictOneRun(chain, e, n, lo, hi);
    } else if lo == hi {
      assert older + walked == walked;
      EvictOneRun(chain, e, n, pos, end);
    } else if hi == pos {
      EvictJoinedRuns(chain, e, n, lo, hi, end);
    } else if hi < pos {
      EvictOlderRun(chain, e, n, lo, hi, pos, end);
    } else {
      assert older + walked == walked + older;
      EvictOlderRun(chain, e, n, pos, end, lo, hi);
    }
  }

  lemma RunsDisjoint(chain: seq<Block>, e: nat, a: nat, b: nat, c: nat, d: nat)
    requires WellFormed(chain) && a <= b <= c <= d <= |chain|
    ensures |RunKeys(chain, e, a, b) + RunKeys(chain, e, c, d)| == (b - a) + (d - c)
  {
    var older, newer := RunKeys(chain, e, a, b), RunKeys(chain, e, c, d);
    forall k | k in older ensures k !in newer {
      var i := RunMember(chain, e, a, b, k);
      RunKeyIndex(chain, e, c, d, i);
    }
    RunSize(chain, e, a, b);
    RunSize(chain, e, c, d);
    assert older !! newer;
  }

  lemma NextRunShape(lo: nat, hi: nat, pos: nat, end: nat, n: nat, start: nat)
    requires lo <= hi && start <= pos <= end && hi - lo <= n && end - pos <= n
    requires lo < hi ==> start <= lo && (hi - lo == n || lo == start)
    requires pos < end && lo < hi ==> hi <= pos || end <= lo
    requires (lo < hi && pos == hi) || end - pos == n || pos == start
    ensures var lo', hi' := NextLo(lo, hi, pos, end, n), NextHi(lo, hi, pos, end);
      && (lo' < hi' ==> start <= lo' && (hi' - lo' == n || lo' == start))
      && hi' - lo' <= n && (hi' == hi || (hi' == end && pos < end))
  {
  }

  lemma {:induction false} NextRunInEpoch(m: Prices, chain: seq<Block>, k: nat, n: nat, lo: nat, hi: nat, pos: nat,
      hit: bool)
    requires WellFormed(chain) && k < |chain| && n >= 1
    requires GapFree(m, chain, chain[k].epoch, n, lo, hi) && WalkOutcome(m, chain, k, n, pos, hit)
    ensures var lo', hi' := NextLo(lo, hi, pos, WindowEnd(k), n), NextHi(lo, hi, pos, WindowEnd(k));
      && hi' - lo' <= n
      && (lo' < hi' <= |chain| ==>
            chain[hi' - 1].epoch == chain[k].epoch && EpochStart(chain, hi' - 1) <= lo'
            && (hi' - lo' == n || lo' == EpochStart(chain, hi' - 1)))
  {
    var end, start := WindowEnd(k), EpochStart(chain, k);
    var lo', hi' := NextLo(lo, hi, pos, end, n), NextHi(lo, hi, pos, end);
    WalkVersusRun(m, chain, k, n, lo, hi, pos, hit);
    if pos < end {
      NextRunShape(lo, hi, pos, end, n, start);
      assert chain[end - 1].epoch == chain[k].epoch;
    }
    if lo' < hi' <= |chain| { SameEpochStart(chain, k, hi' - 1); }
  }

  /** The run left by a call is gap-free. */
  lemma {:induction false} NextRunGapFree(m: Prices, after: Prices, chain: seq<Block>, k: nat, n: nat, lo: nat,
      hi: nat, pos: nat, hit: bool)
    requires WellFormed(chain) && k < |chain| && n >= 1
    requires GapFree(m, chain, chain[k].epoch, n, lo, hi) && WalkOutcome(m, chain, k, n, pos, hit)
    requires after.Keys == Evicted(m.Keys + RunKeys(chain, chain[k].epoch, pos, WindowEnd(k)), n)
    ensures GapFree(after, chain, chain[k].epoch, n,
      NextLo(lo, hi, pos, WindowEnd(k), n), NextHi(lo, hi, pos, WindowEnd(k)))
  {
    EvictedRun(m, m.Keys + RunKeys(chain, chain[k].epoch, pos, WindowEnd(k)), chain, k, n, lo, hi, pos, hit);
    NextRunInEpoch(m, chain, k, n, lo, hi, pos, hit);
  }

  /** That run does not depend on how the walk went. */
  lemma {:induction false} RunAfterWalk(m: Prices, chain: seq<Block>, k: nat, n: nat, lo: nat, hi: nat, pos: nat,
      hit: bool)
    requires WellFormed(chain) && k < |chain| && n >= 1
    requires GapFree(m, chain, chain[k].epoch, n, lo, hi) && WalkOutcome(m, chain, k, n, pos, hit)
    ensures NextLo(lo, hi, pos, WindowEnd(k), n) == LoAfter(chain, n, chain[k].epoch, k, lo, hi)
    ensures NextHi(lo, hi, pos, WindowEnd(k)) == HiAfter(chain, n, chain[k].epoch, k, lo, hi)
  {
    WalkVersusRun(m, chain, k, n, lo, hi, pos, hit);
  }

  lemma PriceFloor(chain: seq<Block>, cfg: GasConfig, onchain: nat -> OnChain, price: Block -> nat, i: nat)
    requires Ledger(chain, cfg, onchain, price) && PaidMinimum(chain, onchain) && i < |chain|
    ensures price(chain[i]) >= onchain(chain[i].epoch).minGas
  {
    assert PricedAt(chain, i, cfg, onchain, price) && PaidAt(chain, i, onchain);
    BlockPriceAtLeastMinimum(chain[i], cfg, onchain);
  }

  /** The assembled list is never empty past the default exit, and never below the minimum price. */
  lemma {:induction false} ListFacts(m: Prices, chain: seq<Block>, cfg: GasConfig, onchain: nat -> OnChain,
      price: Block -> nat, epoch: nat, a: nat, b: nat, hit: bool, list: seq<nat>)
    requires Ledger(chain, cfg, onchain, price) && Sound(m, chain, epoch, price)
    requires a <= b <= |chain| && b - a <= cfg.maxHistory && forall i :: a <= i < b ==> chain[i].epoch == epoch
    requires hit ==> 0 < a && Key(epoch, chain[a - 1].Last() as nat) in m.Keys && b - a < cfg.maxHistory
    requires list == Assembled(m, chain, price, epoch, a, b, hit, cfg.maxHistory)
    requires a < b || hit
    ensures list != []
    ensures PaidMinimum(chain, onchain) ==> forall p :: p in list ==> p >= onchain(epoch).minGas
  {
    if PaidMinimum(chain, onchain) {
      forall p | p in list ensures p >= onchain(epoch).minGas {
        if p in Desc(chain, price, a, b) {
          DescMembers(chain, price, a, b, p);
          var i :| a <= i < b && p == price(chain[i]);
          PriceFloor(chain, cfg, onchain, price, i);
        } else {
          assert p in RangeRev(m, epoch, chain[a - 1].Last());
          assert p in m.Values;
          var k :| k in m && m[k] == p;
          PriceFloor(chain, cfg, onchain, price, BlockIndex(chain, k.version));
        }
      }
    }
  }

  lemma EstimateBasics(cfg: GasConfig, minGas: nat, list: seq<nat>)
    requires cfg.Sanitized()
    ensures EstimateOrDefault(cfg, minGas, list).Ordered()
    ensures (forall p :: p in list ==> p >= minGas) ==> EstimateOrDefault(cfg, minGas, list).low >= minGas
  {
    if list != [] { EstimateMeaning(cfg, list, minGas); }
  }

  /** A caller at or past the newest cached block gets the reference estimate. */
  lemma {:induction false} FreshIsExact(chain: seq<Block>, cfg: GasConfig, minGas: nat, price: Block -> nat,
      epoch: nat, v: nat, m: Prices, lo: nat, hi: nat)
    requires cfg.Sanitized() && WellFormed(chain) && v <= LastVersion(chain)
    requires GapFree(m, chain, epoch, cfg.maxHistory, lo, hi) && hi <= WindowEnd(BlockIndex(chain, v))
    ensures Through(chain, cfg, minGas, price, epoch, v, lo, hi) == Reference(chain, cfg, minGas, price, epoch, v)
  {
    var k := BlockIndex(chain, v);
    if chain[k].epoch == epoch {
      FreshAtTop(m, chain, k, cfg.maxHistory, lo, hi);
      ListExactIff(m, chain, price, k, cfg.maxHistory, lo, hi);
    }
  }

  ghost predicate Within(sub: Prices, m: Prices) {
    forall k :: k in sub ==> k in m && sub[k] == m[k]
  }

  lemma SoundSubset(m: Prices, sub: Prices, chain: seq<Block>, e: nat, price: Block -> nat)
    requires WellFormed(chain) && Sound(m, chain, e, price)
    requires Within(sub, m)
    ensures Sound(sub, chain, e, price)
  {
  }

  lemma {:induction false} WalkedListFacts(m: Prices, m': Prices, chain: seq<Block>, cfg: GasConfig,
      onchain: nat -> OnChain, price: Block -> nat, epoch: nat, v: nat, top: nat, blocks: seq<Span>, hit: bool,
      lookup: nat, list: seq<nat>)
    requires Ledger(chain, cfg, onchain, price) && Sound(m', chain, epoch, price)
    requires Walked(m, chain, epoch, v, top, blocks) && |blocks| <= cfg.maxHistory && (blocks != [] || hit)
    requires m.Keys <= m'.Keys
    requires hit ==>
      && |blocks| < cfg.maxHistory && |blocks| < top
      && lookup == chain[top - 1 - |blocks|].Last() && Key(epoch, lookup) in m
    requires list == Assembled(m', chain, price, epoch, top - |blocks|, top, hit, cfg.maxHistory)
    ensures list != []
    ensures PaidMinimum(chain, onchain) ==> forall p :: p in list ==> p >= onchain(epoch).minGas
  {
    WalkedEpochs(m, chain, epoch, v, top, blocks);
    assert hit ==> Key(epoch, chain[top - |blocks| - 1].Last() as nat) in m'.Keys;
    ListFacts(m', chain, cfg, onchain, price, epoch, top - |blocks|, top, hit, list);
  }

  class Estimator {
    const cfg: GasConfig
    const onchain: nat -> OnChain
    ghost const price: Block -> nat
    // GasEstimationCache
    var prices: Prices
    var lastEpoch: Option<nat>
    var lastTime: Option<nat>
    var estimation: Option<GasEstimation>
    // while every lookup succeeds the cached entries are exactly the blocks lo .. hi
    ghost var lo: nat
    ghost var hi: nat

    constructor (cfg: GasConfig, onchain: nat -> OnChain, ghost price: Block -> nat)
      ensures this.cfg == cfg && this.onchain == onchain && this.price == price
      ensures prices == map[] && lastEpoch == None && lastTime == None && estimation == None && lo == hi == 0
    {
      this.cfg, this.onchain := cfg, onchain;
      this.price := price;
      prices, lastEpoch, lastTime, estimation := map[], None, None, None;
      lo, hi := 0, 0;
    }

    /** Holds between calls whatever order the callers come in and whichever lookups fail. */
    ghost predicate Valid(chain: seq<Block>)
      reads this
    {
      && cfg.Sanitized() && Ledger(chain, cfg, onchain, price) && |prices| <= cfg.maxHistory
      && (lastEpoch.None? ==> prices == map[])
      && (lastEpoch.Some? <==> estimation.Some?) && (lastTime.Some? <==> estimation.Some?)
      && (lastEpoch.Some? ==> Sound(prices, chain, lastEpoch.value, price))
      && (estimation.Some? ==> estimation.value.Ordered())
      && (estimation.Some? && PaidMinimum(chain, onchain) ==> estimation.value.low >= onchain(lastEpoch.value).minGas)
    }

    /** Holds in addition as long as every lookup has succeeded. */
    ghost predicate Tight(chain: seq<Block>)
      requires WellFormed(chain)
      reads this
    {
      if lastEpoch.None? then lo == hi == 0 else GapFree(prices, chain, lastEpoch.value, cfg.maxHistory, lo, hi)
    }

    /** Everything but the price map. */
    ghost function View(): Slim
      reads this
    {
      Slim(if lastEpoch.Some? && lastTime.Some? && estimation.Some?
           then Some(Remembered(lastEpoch.value, lastTime.value, estimation.value)) else None,
           lo, hi)
    }

    /** An unexpired result of the same epoch. */
    function CachedEstimation(epoch: nat, now: nat): (r: Option<GasEstimation>)
      reads this
      ensures r == SlimCached(cfg, View(), epoch, now)
      ensures r.Some? <==>
        && lastEpoch == Some(epoch) && lastTime.Some? && estimation.Some?
        && 0 < cfg.expirationMs && now < lastTime.value + cfg.expirationMs
      ensures r.Some? ==> r == estimation
    {
      if lastEpoch.Some? && lastTime.Some? && estimation.Some? && lastEpoch.value == epoch
         && (if now < lastTime.value then 0 else now - lastTime.value) < cfg.expirationMs
      then estimation else None
    }

    /** The endpoint: disabled, overridden, answered from the cache, or computed under the write lock. */
    method EstimateGasPrice(chain: seq<Block>, unreadable: set<nat>, epoch: nat, ledgerVersion: nat, now: nat)
      returns (r: GasEstimation)
      requires Valid(chain) && ledgerVersion <= LastVersion(chain)
      modifies this
      ensures Valid(chain) && (unreadable == {} && old(Tight(chain)) ==> Tight(chain))
      ensures !cfg.enabled ==> r == DefaultEstimation(cfg, onchain(epoch).minGas)
      ensures cfg.enabled && cfg.staticOverride.None? && old(CachedEstimation(epoch, now)).Some? ==>
        Some(r) == old(CachedEstimation(epoch, now)) && unchanged(this)
      ensures cfg.enabled && cfg.staticOverride.Some? ==>
        r == GasEstimation(cfg.staticOverride.value.low, cfg.staticOverride.value.market,
          cfg.staticOverride.value.aggressive)
      ensures !cfg.enabled || cfg.staticOverride.None? ==>
        r.Ordered() && (PaidMinimum(chain, onchain) ==> r.low >= onchain(epoch).minGas)
      ensures cfg.enabled && cfg.staticOverride.None? && unreadable == {} && old(Tight(chain)) ==>
        && SlimLocked(cfg, onchain, price, old(View()), chain, epoch, ledgerVersion, now) == Served(View(), r)
        && (old(CachedEstimation(epoch, now)).None? && old(hi) <= WindowEnd(BlockIndex(chain, ledgerVersion)) ==>
            r == Reference(chain, cfg, onchain(epoch).minGas, price, epoch, ledgerVersion))
    {
      if !cfg.enabled { return DefaultEstimation(cfg, onchain(epoch).minGas); }
      if cfg.staticOverride.Some? {
        var fixed := cfg.staticOverride.value;
        return GasEstimation(fixed.low, fixed.market, fixed.aggressive);
      }
      var cached := CachedEstimation(epoch, now);
      if cached.Some? { return cached.value; }
      r := EstimateLocked(chain, unreadable, epoch, ledgerVersion, now);
    }

    /** The section under the write lock.  Other callers may have held the lock since the first look
        at the cache, so it looks again. */
    method EstimateLocked(chain: seq<Block>, unreadable: set<nat>, epoch: nat, ledgerVersion: nat, now: nat)
      returns (r: GasEstimation)
      requires Valid(chain) && ledgerVersion <= LastVersion(chain)
      modifies this
      ensures Valid(chain) && r.Ordered() && (PaidMinimum(chain, onchain) ==> r.low >= onchain(epoch).minGas)
      ensures unreadable == {} && old(Tight(chain)) ==> Tight(chain)
      ensures hi <= old(hi) || hi <= WindowEnd(BlockIndex(chain, ledgerVersion))
      ensures old(CachedEstimation(epoch, now)).Some? ==>
        && Some(r) == old(CachedEstimation(epoch, now))
        && unchanged(this)
      ensures old(CachedEstimation(epoch, now)).None? ==>
        lastEpoch == Some(epoch) && lastTime == Some(now) && estimation == Some(r)
      ensures unreadable == {} && old(Tight(chain)) ==>
        && SlimLocked(cfg, onchain, price, old(View()), chain, epoch, ledgerVersion, now) == Served(View(), r)
        && (old(CachedEstimation(epoch, now)).None? && old(hi) <= WindowEnd(BlockIndex(chain, ledgerVersion)) ==>
            r == Reference(chain, cfg, onchain(epoch).minGas, price, epoch, ledgerVersion))
    {
      var cached := CachedEstimation(epoch, now);
      if cached.Some? { return cached.value; }
      ClearOnEpochChange(chain, epoch);
      ghost var m, from, to := prices, lo, hi;
      r := Recompute(chain, unreadable, epoch, ledgerVersion, now);
      if GapFree(m, chain, epoch, cfg.maxHistory, from, to) && to <= WindowEnd(BlockIndex(chain, ledgerVersion)) {
        FreshIsExact(chain, cfg, onchain(epoch).minGas, price, epoch, ledgerVersion, m, from, to);
      }
    }

    method ClearOnEpochChange(chain: seq<Block>, epoch: nat)
      requires Valid(chain)
      modifies this`prices, this`lo, this`hi
      ensures |prices| <= cfg.maxHistory && Sound(prices, chain, epoch, price)
      ensures old(Tight(chain)) ==>
        && GapFree(prices, chain, epoch, cfg.maxHistory, lo, hi)
        && lo == (if old(lastEpoch) == Some(epoch) then old(lo) else 0)
        && hi == (if old(lastEpoch) == Some(epoch) then old(hi) else 0)
      ensures hi <= old(hi)
    {
      if lastEpoch.Some? && lastEpoch.value != epoch {
        prices, lo, hi := map[], 0, 0;
      }
    }

    /** Both invariants hold of every later view of the ledger. */
    lemma SurvivesGrowth(old_: seq<Block>, new_: seq<Block>)
      requires Valid(old_) && Grows(old_, new_) && Ledger(new_, cfg, onchain, price)
      ensures Valid(new_) && (Tight(old_) ==> Tight(new_))
    {
      PaidMinimumBefore(old_, new_, onchain);
      if lastEpoch.Some? {
        SoundSurvivesGrowth(prices, old_, new_, lastEpoch.value, price);
        if Tight(old_) {
          GapFreeSurvivesGrowth(prices, old_, new_, lastEpoch.value, price, cfg.maxHistory, lo, hi);
        }
      }
    }

    /** The estimate as computed under the write lock, cached entries of other epochs already gone. */
    method Recompute(chain: seq<Block>, unreadable: set<nat>, epoch: nat, ledgerVersion: nat, now: nat)
      returns (r: GasEstimation)
      requires cfg.Sanitized() && Ledger(chain, cfg, onchain, price) && ledgerVersion <= LastVersion(chain)
      requires |prices| <= cfg.maxHistory && Sound(prices, chain, epoch, price)
      modifies this
      ensures |prices| <= cfg.maxHistory && Sound(prices, chain, epoch, price)
      ensures r.Ordered() && (PaidMinimum(chain, onchain) ==> r.low >= onchain(epoch).minGas)
      ensures hi <= old(hi) || hi <= WindowEnd(BlockIndex(chain, ledgerVersion))
      ensures lastEpoch == Some(epoch) && estimation == Some(r) && lastTime == Some(now)
      ensures unreadable == {} && GapFree(old(prices), chain, epoch, cfg.maxHistory, old(lo), old(hi)) ==>
        && GapFree(prices, chain, epoch, cfg.maxHistory, lo, hi)
        && SlimRecompute(cfg, onchain, price, chain, epoch, ledgerVersion, now, old(lo), old(hi)) == Served(View(), r)
    {
      var list := Refresh(chain, unreadable, epoch, ledgerVersion);
      r := Summarise(chain, epoch, ledgerVersion, old(lo), old(hi), list);
      lastEpoch, estimation, lastTime := Some(epoch), Some(r), Some(now);
    }

    /** Step 3: the three numbers. */
    method Summarise(chain: seq<Block>, epoch: nat, ghost v: nat, ghost from: nat, ghost to: nat, list: seq<nat>)
      returns (r: GasEstimation)
      requires cfg.Sanitized() && WellFormed(chain) && v <= LastVersion(chain)
      ensures r.Ordered()
      ensures (forall p :: p in list ==> p >= onchain(epoch).minGas) ==> r.low >= onchain(epoch).minGas
      ensures list == CallerList(chain, cfg.maxHistory, price, epoch, BlockIndex(chain, v), from, to) ==>
        r == Through(chain, cfg, onchain(epoch).minGas, price, epoch, v, from, to)
    {
      r := EstimateOrDefault(cfg, onchain(epoch).minGas, list);
      EstimateBasics(cfg, onchain(epoch).minGas, list);
    }

    /** Steps 1, 2 and 4: the list and the cached run, for every caller. */
    method Refresh(chain: seq<Block>, unreadable: set<nat>, epoch: nat, ledgerVersion: nat) returns (list: seq<nat>)
      requires cfg.Sanitized() && Ledger(chain, cfg, onchain, price) && ledgerVersion <= LastVersion(chain)
      requires |prices| <= cfg.maxHistory && Sound(prices, chain, epoch, price)
      modifies this`prices, this`lo, this`hi
      ensures |prices| <= cfg.maxHistory && Sound(prices, chain, epoch, price)
      ensures PaidMinimum(chain, onchain) ==> forall p :: p in list ==> p >= onchain(epoch).minGas
      ensures hi <= old(hi) || hi <= WindowEnd(BlockIndex(chain, ledgerVersion))
      ensures unreadable == {} && GapFree(old(prices), chain, epoch, cfg.maxHistory, old(lo), old(hi)) ==>
        && GapFree(prices, chain, epoch, cfg.maxHistory, lo, hi)
        && lo == LoAfter(chain, cfg.maxHistory, epoch, BlockIndex(chain, ledgerVersion), old(lo), old(hi))
        && hi == HiAfter(chain, cfg.maxHistory, epoch, BlockIndex(chain, ledgerVersion), old(lo), old(hi))
        && list == CallerList(chain, cfg.maxHistory, price, epoch, BlockIndex(chain, ledgerVersion), old(lo), old(hi))
    {
      ghost var k, n := BlockIndex(chain, ledgerVersion), cfg.maxHistory;
      ghost var m := prices;
      ghost var pos: nat, end: nat, hit: bool;
      list, pos, end, hit := ReadPrices(chain, unreadable, epoch, ledgerVersion);
      ghost var tight := unreadable == {} && chain[k].epoch == epoch && GapFree(m, chain, epoch, n, lo, hi);
      if tight {
        CollectedList(m, prices, chain, price, k, n, lo, hi, pos, hit);
        RunAfterWalk(m, chain, k, n, lo, hi, pos, hit);
      }
      if list != [] { EvictOldest(chain, epoch, m, k, pos, hit, tight); }
    }

    /** Steps 1 and 2: the newest-first price list, empty at the early default exit. */
    method ReadPrices(chain: seq<Block>, unreadable: set<nat>, epoch: nat, ledgerVersion: nat)
      returns (list: seq<nat>, ghost pos: nat, ghost end: nat, ghost hit: bool)
      requires cfg.Sanitized() && Ledger(chain, cfg, onchain, price) && ledgerVersion <= LastVersion(chain)
      requires Sound(prices, chain, epoch, price)
      modifies this`prices
      ensures Sound(prices, chain, epoch, price)
      ensures PaidMinimum(chain, onchain) ==> forall p :: p in list ==> p >= onchain(epoch).minGas
      ensures pos <= end <= |chain| && end - pos <= cfg.maxHistory && (hit ==> 0 < pos)
      ensures prices.Keys == old(prices.Keys) + RunKeys(chain, epoch, pos, end)
      ensures list == Assembled(prices, chain, price, epoch, pos, end, hit, cfg.maxHistory)
      ensures list == [] ==> pos == end && !hit && prices == old(prices)
      ensures unreadable == {} && chain[BlockIndex(chain, ledgerVersion)].epoch == epoch ==>
        && end == WindowEnd(BlockIndex(chain, ledgerVersion))
        && WalkOutcome(old(prices), chain, BlockIndex(chain, ledgerVersion), cfg.maxHistory, pos, hit)
      ensures unreadable == {} && chain[BlockIndex(chain, ledgerVersion)].epoch != epoch ==> list == []
    {
      ghost var m := prices;
      var blocks, cachedBlocksHit, lookup, top := WalkBlocks(chain, unreadable, epoch, ledgerVersion);
      pos, end, hit := top - |blocks|, top, cachedBlocksHit;
      if blocks == [] && !cachedBlocksHit {
        list := [];
        assert prices.Keys == m.Keys + RunKeys(chain, epoch, pos, top);
      } else {
        list := PriceBlocks(chain, epoch, ledgerVersion, blocks, cachedBlocksHit, lookup, top);
        WalkedListFacts(m, prices, chain, cfg, onchain, price, epoch, ledgerVersion, top, blocks, cachedBlocksHit,
          lookup, list);
      }
    }

    /** The block of the ledger version may be partial, and is skipped if it is of the epoch. */
    method SkipNewest(chain: seq<Block>, unreadable: set<nat>, epoch: nat, ledgerVersion: nat)
      returns (lookup: nat, ghost skipped: bool)
      requires WellFormed(chain) && ledgerVersion <= LastVersion(chain)
      ensures var k := BlockIndex(chain, ledgerVersion);
        && skipped == (ledgerVersion !in unreadable && chain[k].epoch == epoch)
        && lookup == if skipped then chain[WindowEnd(k) - 1].Last() else ledgerVersion
    {
      ghost var k := BlockIndex(chain, ledgerVersion);
      lookup, skipped := ledgerVersion, false;
      var newest := GetBlockByVersion(chain, unreadable, ledgerVersion);
      if newest.Some? && newest.value.epoch == epoch {
        lookup := if newest.value.first == 0 then 0 else newest.value.first - 1;
        skipped := true;
        if k > 0 { assert Linked(chain, k); }
      }
    }

    /** 1. Walk back from the block before the ledger version until a cached block, the epoch
        boundary, an unreadable block or the history limit. */
    method WalkBlocks(chain: seq<Block>, unreadable: set<nat>, epoch: nat, ledgerVersion: nat)
      returns (blocks: seq<Span>, hit: bool, lookup: nat, ghost top: nat)
      requires cfg.Sanitized() && WellFormed(chain) && ledgerVersion <= LastVersion(chain)
      requires KeysAreEnds(prices, chain, epoch)
      ensures Walked(prices, chain, epoch, ledgerVersion, top, blocks) && |blocks| <= cfg.maxHistory
      ensures hit ==>
        && |blocks| < cfg.maxHistory && |blocks| < top
        && lookup == chain[top - 1 - |blocks|].Last() && Key(epoch, lookup) in prices
      ensures unreadable == {} && chain[BlockIndex(chain, ledgerVersion)].epoch != epoch ==> blocks == [] && !hit
      ensures unreadable == {} && chain[BlockIndex(chain, ledgerVersion)].epoch == epoch ==>
        && top == WindowEnd(BlockIndex(chain, ledgerVersion))
        && WalkOutcome(prices, chain, BlockIndex(chain, ledgerVersion), cfg.maxHistory, top - |blocks|, hit)
      ensures ledgerVersion in unreadable ==> blocks == []
      ensures ledgerVersion !in unreadable && chain[BlockIndex(chain, ledgerVersion)].epoch == epoch ==>
        WalkStops(chain, BlockIndex(chain, ledgerVersion), cfg.maxHistory, unreadable, top, |blocks|, hit)
    {
      ghost var k := BlockIndex(chain, ledgerVersion);
      ghost var skipped;
      blocks, hit := [], false;
      lookup, skipped := SkipNewest(chain, unreadable, epoch, ledgerVersion);
      top := if skipped then WindowEnd(k) else k + 1;
      while |blocks| < cfg.maxHistory
        invariant !hit && |blocks| <= cfg.maxHistory && |blocks| < top
        invariant Walked(prices, chain, epoch, ledgerVersion, top, blocks)
        invariant skipped ==>
          && top == WindowEnd(k) && chain[k].epoch == epoch
          && lookup == chain[top - 1 - |blocks|].Last() && EpochStart(chain, k) <= top - |blocks|
        invariant !skipped ==> blocks == [] && lookup == ledgerVersion && top == k + 1
        invariant !skipped && unreadable == {} ==> chain[k].epoch != epoch
        decreases cfg.maxHistory - |blocks|
      {
        if Key(epoch, lookup) in prices {
          hit := true;
          break;
        }
        if skipped { StepBack(chain, ledgerVersion, top - |blocks|); }
        var found := GetBlockByVersion(chain, unreadable, lookup);
        if found.None? || found.value.epoch != epoch { break; }
        var b := found.value;
        WalkedAppend(prices, chain, epoch, ledgerVersion, top, blocks);
        lookup := if b.first == 0 then 0 else b.first - 1;
        blocks := blocks + [Span(b.first, b.Last())];
        if lookup == 0 { break; }
      }
      WalkedEpochs(prices, chain, epoch, ledgerVersion, top, blocks);
    }

    /** 2. Price the walked blocks, remember them, and read the rest of the list from the cache. */
    method PriceBlocks(chain: seq<Block>, epoch: nat, ledgerVersion: nat, blocks: seq<Span>, hit: bool, lookup: nat,
        ghost top: nat)
      returns (list: seq<nat>)
      requires Ledger(chain, cfg, onchain, price) && |blocks| <= cfg.maxHistory
      requires Sound(prices, chain, epoch, price)
      requires Walked(prices, chain, epoch, ledgerVersion, top, blocks)
      requires hit ==> |blocks| < top && lookup == chain[top - |blocks| - 1].Last()
      modifies this`prices
      ensures Sound(prices, chain, epoch, price)
      ensures prices.Keys == old(prices.Keys) + RunKeys(chain, epoch, top - |blocks|, top)
      ensures list == Assembled(prices, chain, price, epoch, top - |blocks|, top, hit, cfg.maxHistory)
    {
      ghost var m0 := prices;
      ghost var at := top;
      list := [];
      for j := 0 to |blocks|
        invariant at == top - j && Sound(prices, chain, epoch, price)
        invariant prices.Keys == m0.Keys + RunKeys(chain, epoch, at, top)
        invariant list == Desc(chain, price, at, top)
      {
        WalkedAt(m0, chain, epoch, ledgerVersion, top, blocks, j);
        at := at - 1;
        ghost var before := prices.Keys;
        var value := PriceBlock(chain, epoch, ledgerVersion, blocks[j].first, blocks[j].last, at);
        OneMorePriced(chain, price, epoch, at, top, m0.Keys, before, prices.Keys, list, value);
        list := list + [value];
      }
      if hit {
        list := list + CachedTail(prices, epoch, lookup, cfg.maxHistory - |blocks|);
      }
    }

    method PriceBlock(chain: seq<Block>, epoch: nat, ledgerVersion: nat, first: nat, last: nat, ghost i: nat)
      returns (value: nat)
      requires Ledger(chain, cfg, onchain, price) && Sound(prices, chain, epoch, price)
      requires i < |chain| && chain[i].epoch == epoch && Sealed(chain, i)
      requires first == chain[i].first && last == chain[i].Last() <= ledgerVersion
      modifies this`prices
      ensures Sound(prices, chain, epoch, price)
      ensures prices.Keys == old(prices.Keys) + {Key(epoch, chain[i].Last() as nat)}
      ensures value == price(chain[i])
    {
      var p := BlockMinInclusionPrice(chain, first, last, ledgerVersion, onchain(epoch));
      value := p.GetOr(onchain(epoch).minGas);
      BlockIndexUnique(chain, last, i);
      SoundInsert(prices, chain, epoch, price, i);
      prices := prices[Key(epoch, last) := value];
    }

    /** The price of the block `first ..= last`, if it was full. */
    method BlockMinInclusionPrice(chain: seq<Block>, first: nat, last: nat, ledgerVersion: nat, oc: OnChain)
      returns (p: Option<nat>)
      requires Ledger(chain, cfg, onchain, price) && last <= ledgerVersion
      requires exists i ::
        0 <= i < |chain| && chain[i].first == first && chain[i].Last() == last && onchain(chain[i].epoch) == oc
      ensures first <= last <= LastVersion(chain)
      ensures var b := chain[BlockIndex(chain, last)];
        && b.Last() == last && Priceable(b.txns[..|b.txns| - 1], cfg, oc)
        && p == InclusionPrice(b.txns[..|b.txns| - 1], cfg, oc) && PricedFor(b.txns[..|b.txns| - 1], cfg, oc, p)
        && p.GetOr(oc.minGas) == price(b)
    {
      ghost var i :|
        0 <= i < |chain| && chain[i].first == first && chain[i].Last() == last && onchain(chain[i].epoch) == oc;
      BlockIndexUnique(chain, last, i);
      assert PricedAt(chain, i, cfg, onchain, price);
      var found := GetBlockByVersion(chain, {}, last);
      ReadWholeBlock(found.value, ledgerVersion);
      p := InclusionPriceOf(ReadTxns(found.value, ledgerVersion), oc);
      InclusionPriceMeans(ReadTxns(found.value, ledgerVersion), cfg, oc);
    }

    method InclusionPriceOf(read: seq<Txn>, oc: OnChain) returns (p: Option<nat>)
      requires Priceable(read, cfg, oc)
      ensures p == InclusionPrice(read, cfg, oc)
    {
      var users, ends, majority := GetGasPricesAndUsed(read, cfg.reordering && oc.spreadFactor.Some?);
      var full := false;
      if majority {
        // the block could have taken other transactions
      } else if |users| >= cfg.fullBlockTxns {
        full := true;
      } else if ends != [] {
        full := ends[0];
      } else if oc.blockGasLimit.Some? {
        full := GasUsed(users) >= oc.blockGasLimit.value;
      }
      p := if full then Some(NextBucket(cfg.buckets, LowestPrice(users))) else None;
    }

    /** 4. Drop the oldest entries beyond the history limit. */
    method CollectGarbage()
      modifies this`prices
      ensures prices.Keys == Evicted(old(prices.Keys), cfg.maxHistory)
      ensures Within(prices, old(prices))
      ensures |prices| == if |old(prices)| < cfg.maxHistory then |old(prices)| else cfg.maxHistory
      ensures forall gone, left ::
        gone in old(prices) && gone !in prices && left in prices ==> KeyLe(gone, left)
    {
      ghost var m0, left := prices, Evicted(prices.Keys, cfg.maxHistory);
      assert |m0| == |m0.Keys|;
      if |prices| > cfg.maxHistory {
        var excess := |prices| - cfg.maxHistory;
        for i := 0 to excess
          invariant |prices| == cfg.maxHistory + excess - i
          invariant DropFirst(prices.Keys, excess - i) == left
          invariant Within(prices, m0)
        {
          PopFirst();
        }
      }
      forall gone, left | gone in m0 && gone !in prices && left in prices ensures KeyLe(gone, left) {
        DropFirstIsOldest(m0.Keys, if |m0| > cfg.maxHistory then |m0| - cfg.maxHistory else 0, gone, left);
      }
    }

    /** Eviction, keeping track of the run that is left. */
    method EvictOldest(chain: seq<Block>, ghost epoch: nat, ghost m: Prices, ghost k: nat, ghost pos: nat,
        ghost hit: bool, ghost tight: bool)
      requires cfg.Sanitized() && WellFormed(chain) && Sound(prices, chain, epoch, price)
      requires tight ==>
        && k < |chain| && chain[k].epoch == epoch
        && GapFree(m, chain, epoch, cfg.maxHistory, lo, hi) && WalkOutcome(m, chain, k, cfg.maxHistory, pos, hit)
        && prices.Keys == m.Keys + RunKeys(chain, epoch, pos, WindowEnd(k))
      modifies this`prices, this`lo, this`hi
      ensures |prices| <= cfg.maxHistory && Sound(prices, chain, epoch, price)
      ensures tight ==>
        && GapFree(prices, chain, epoch, cfg.maxHistory, lo, hi)
        && lo == NextLo(old(lo), old(hi), pos, WindowEnd(k), cfg.maxHistory)
        && hi == NextHi(old(lo), old(hi), pos, WindowEnd(k))
      ensures hi <= old(hi) || hi <= WindowEnd(k)
    {
      ghost var m1 := prices;
      CollectGarbage();
      SoundSubset(m1, prices, chain, epoch, price);
      if tight {
        NextRunGapFree(m, prices, chain, k, cfg.maxHistory, lo, hi, pos, hit);
        lo, hi := NextLo(lo, hi, pos, WindowEnd(k), cfg.maxHistory), NextHi(lo, hi, pos, WindowEnd(k));
      }
    }

    method PopFirst()
      requires |prices| > 0
      modifies this`prices
      ensures old(prices.Keys) != {} && prices == old(prices) - {FirstKey(old(prices.Keys))}
      ensures prices.Keys == old(prices.Keys) - {FirstKey(old(prices.Keys))} && |prices| == old(|prices|) - 1
    {
      assert prices.Keys != {};
      ghost var first := FirstKey(prices.Keys);
      assert first in prices;
      var k :| k in prices && forall k2 :: k2 in prices ==> KeyLe(k, k2);
      FirstIsUnique(prices.Keys, k, first);
      prices := prices - {k};
    }
  }

  lemma SoundInsert(m: Prices, chain: seq<Block>, e: nat, price: Block -> nat, i: nat)
    requires WellFormed(chain) && Sound(m, chain, e, price)
    requires i < |chain| && chain[i].epoch == e && Sealed(chain, i)
    ensures Sound(m[Key(e, chain[i].Last() as nat) := price(chain[i])], chain, e, price)
  {
    BlockIndexUnique(chain, chain[i].Last(), i);
  }

  lemma OneMorePriced(chain: seq<Block>, price: Block -> nat, e: nat, at: nat, top: nat, keys: set<Key>,
      before: set<Key>, after: set<Key>, list: seq<nat>, value: nat)
    requires WellFormed(chain) && at < top <= |chain|
    requires before == keys + RunKeys(chain, e, at + 1, top) && after == before + {Key(e, chain[at].Last() as nat)}
    requires list == Desc(chain, price, at + 1, top) && value == price(chain[at])
    ensures after == keys + RunKeys(chain, e, at, top) && list + [value] == Desc(chain, price, at, top)
  {
    RunExtendsDown(chain, e, at, top);
    DescExtendsDown(chain, price, at, top);
  }

  lemma DescExtendsDown(chain: seq<Block>, price: Block -> nat, i: nat, b: nat)
    requires WellFormed(chain) && i < b <= |chain|
    ensures Desc(chain, price, i, b) == Desc(chain, price, i + 1, b) + [price(chain[i])]
  {
    DescSplit(chain, price, i, i + 1, b);
    assert Desc(chain, price, i, i + 1) == [price(chain[i])];
  }
}
