/** The ordered price map `(epoch, last version of a block) -> price` and what its operations do to a
    run of consecutive blocks. */
module GasCache {
  import opened Wrappers
  import opened Chain

  /** Ordered by epoch, then by the last version of the block. */
  datatype Key = Key(epoch: nat, version: nat)

  type Prices = map<Key, nat>

  predicate KeyLe(a: Key, b: Key) {
    a.epoch < b.epoch || (a.epoch == b.epoch && a.version <= b.version)
  }

  ghost predicate IsFirst(keys: set<Key>, k: Key) {
    k in keys && forall k2 :: k2 in keys ==> KeyLe(k, k2)
  }

  lemma {:induction false} FirstExists(keys: set<Key>)
    requires keys != {}
    ensures exists k :: IsFirst(keys, k)
  {
    var x :| x in keys;
    var rest := keys - {x};
    if rest == {} {
      assert keys == {x};
      assert IsFirst(keys, x);
    } else {
      FirstExists(rest);
      var y :| IsFirst(rest, y);
      assert forall k :: k in keys ==> k == x || k in rest;
      assert IsFirst(keys, if KeyLe(x, y) then x else y);
    }
  }

  ghost function FirstKey(keys: set<Key>): (k: Key)
    requires keys != {}
    ensures IsFirst(keys, k)
  {
    FirstExists(keys);
    var k :| IsFirst(keys, k);
    k
  }

  lemma FirstIsUnique(keys: set<Key>, a: Key, b: Key)
    requires IsFirst(keys, a) && IsFirst(keys, b)
    ensures a == b
  {
  }

  /** The keys left after `pop_first`, `n` times. */
  ghost function DropFirst(keys: set<Key>, n: nat): set<Key>
    decreases n
  {
    if n == 0 || keys == {} then keys else DropFirst(keys - {FirstKey(keys)}, n - 1)
  }

  lemma {:induction false} DropFirstSize(keys: set<Key>, n: nat)
    ensures DropFirst(keys, n) <= keys
    ensures |DropFirst(keys, n)| == if n <= |keys| then |keys| - n else 0
    decreases n
  {
    if n > 0 && keys != {} { DropFirstSize(keys - {FirstKey(keys)}, n - 1); }
  }

  /** The values under `(epoch, 0) ..= (epoch, hi)`, newest first. */
  function RangeRev(m: Prices, epoch: nat, hi: int): (r: seq<nat>)
    requires hi >= -1
    ensures forall p :: p in r ==> p in m.Values
    decreases hi + 1
  {
    if hi < 0 then []
    else (if Key(epoch, hi) in m then [m[Key(epoch, hi)]] else []) + RangeRev(m, epoch, hi - 1)
  }

  /** The cached versions of the epoch from `lo` to `hi`. */
  function Versions(m: Prices, epoch: nat, lo: nat, hi: int): set<nat> {
    set v: nat | lo <= v <= hi && Key(epoch, v) in m
  }

  /** Whatever the map holds, the range yields the value of each cached version once: that of `v` after
      those of all later versions. */
  lemma {:induction false} RangeRevMeans(m: Prices, epoch: nat, hi: int, v: nat)
    requires hi >= -1
    ensures |RangeRev(m, epoch, hi)| == |Versions(m, epoch, 0, hi)|
    ensures v <= hi && Key(epoch, v) in m ==>
      && |Versions(m, epoch, v + 1, hi)| < |RangeRev(m, epoch, hi)|
      && RangeRev(m, epoch, hi)[|Versions(m, epoch, v + 1, hi)|] == m[Key(epoch, v)]
    decreases hi + 1
  {
    if hi < 0 {
      assert Versions(m, epoch, 0, hi) == {};
    } else {
      RangeRevMeans(m, epoch, hi - 1, v);
      NewestVersion(m, epoch, 0, hi);
      if v < hi { NewestVersion(m, epoch, v + 1, hi); }
      if v == hi { assert Versions(m, epoch, v + 1, hi) == {}; }
    }
  }

  lemma NewestVersion(m: Prices, epoch: nat, lo: nat, hi: nat)
    requires lo <= hi
    ensures |Versions(m, epoch, lo, hi)| == |Versions(m, epoch, lo, hi - 1)| + if Key(epoch, hi) in m then 1 else 0
  {
    if Key(epoch, hi) in m {
      assert Versions(m, epoch, lo, hi) == Versions(m, epoch, lo, hi - 1) + {hi};
    } else {
      assert Versions(m, epoch, lo, hi) == Versions(m, epoch, lo, hi - 1);
    }
  }

  /** What is popped comes before everything that is left. */
  lemma {:induction false} DropFirstIsOldest(keys: set<Key>, n: nat, gone: Key, left: Key)
    requires gone in keys && gone !in DropFirst(keys, n) && left in DropFirst(keys, n)
    ensures KeyLe(gone, left)
    decreases n
  {
    var first := FirstKey(keys);
    DropFirstSize(keys - {first}, n - 1);
    if gone != first { DropFirstIsOldest(keys - {first}, n - 1, gone, left); }
  }

  // ---------- runs of blocks ----------

  /** The cache keys of blocks `a .. b`. */
  ghost function RunKeys(chain: seq<Block>, e: nat, a: nat, b: nat): set<Key>
    requires WellFormed(chain) && b <= |chain|
    decreases b
  {
    if a >= b then {} else RunKeys(chain, e, a, b - 1) + {Key(e, chain[b - 1].Last() as nat)}
  }

  /** The prices of blocks `a .. b`, newest first. */
  ghost function Desc(chain: seq<Block>, price: Block -> nat, a: nat, b: nat): (r: seq<nat>)
    requires WellFormed(chain) && a <= b <= |chain|
    ensures |r| == b - a
    decreases b
  {
    if a == b then [] else [price(chain[b - 1])] + Desc(chain, price, a, b - 1)
  }

  lemma {:induction false} DescAt(chain: seq<Block>, price: Block -> nat, a: nat, b: nat, i: nat)
    requires WellFormed(chain) && a <= b <= |chain| && i < b - a
    ensures Desc(chain, price, a, b)[i] == price(chain[b - 1 - i])
    decreases b
  {
    if i > 0 { DescAt(chain, price, a, b - 1, i - 1); }
  }

  lemma {:induction false} DescSplit(chain: seq<Block>, price: Block -> nat, a: nat, m: nat, b: nat)
    requires WellFormed(chain) && a <= m <= b <= |chain|
    ensures Desc(chain, price, a, b)
         == Desc(chain, price, m, b) + Desc(chain, price, a, m)
    decreases b
  {
    if m < b { DescSplit(chain, price, a, m, b - 1); }
  }

  lemma {:induction false} DescMembers(chain: seq<Block>, price: Block -> nat, a: nat, b: nat, p: nat)
    requires WellFormed(chain) && a <= b <= |chain|
    requires p in Desc(chain, price, a, b)
    ensures exists i :: a <= i < b && p == price(chain[i])
    decreases b
  {
    if p != price(chain[b - 1]) { DescMembers(chain, price, a, b - 1, p); }
  }

  lemma {:induction false} RunMember(chain: seq<Block>, e: nat, a: nat, b: nat, k: Key) returns (i: nat)
    requires WellFormed(chain) && b <= |chain| && k in RunKeys(chain, e, a, b)
    ensures a <= i < b && k == Key(e, chain[i].Last() as nat)
    decreases b
  {
    if k == Key(e, chain[b - 1].Last() as nat) { i := b - 1; } else { i := RunMember(chain, e, a, b - 1, k); }
  }

  lemma {:induction false} RunContains(chain: seq<Block>, e: nat, a: nat, b: nat, i: nat)
    requires WellFormed(chain) && a <= i < b <= |chain|
    ensures Key(e, chain[i].Last() as nat) in RunKeys(chain, e, a, b)
    decreases b
  {
    if i < b - 1 { RunContains(chain, e, a, b - 1, i); }
  }

  lemma RunKeyIndex(chain: seq<Block>, e: nat, a: nat, b: nat, i: nat)
    requires WellFormed(chain) && b <= |chain| && i < |chain|
    ensures Key(e, chain[i].Last() as nat) in RunKeys(chain, e, a, b) <==> a <= i < b
  {
    if a <= i < b {
      RunContains(chain, e, a, b, i);
    } else if Key(e, chain[i].Last() as nat) in RunKeys(chain, e, a, b) {
      var j := RunMember(chain, e, a, b, Key(e, chain[i].Last() as nat));
      VersionsIncrease(chain, if i < j then i else j, if i < j then j else i);
    }
  }

  lemma {:induction false} RunJoin(chain: seq<Block>, e: nat, a: nat, b: nat, c: nat)
    requires WellFormed(chain) && a <= b <= c <= |chain|
    ensures RunKeys(chain, e, a, b) + RunKeys(chain, e, b, c) == RunKeys(chain, e, a, c)
    decreases c
  {
    if b < c { RunJoin(chain, e, a, b, c - 1); }
  }

  lemma RunExtendsDown(chain: seq<Block>, e: nat, i: nat, b: nat)
    requires WellFormed(chain) && i < b <= |chain|
    ensures RunKeys(chain, e, i, b) == {Key(e, chain[i].Last() as nat)} + RunKeys(chain, e, i + 1, b)
    ensures Key(e, chain[i].Last() as nat) !in RunKeys(chain, e, i + 1, b)
  {
    RunJoin(chain, e, i, i + 1, b);
    RunKeyIndex(chain, e, i + 1, b, i);
    assert RunKeys(chain, e, i, i + 1) == {Key(e, chain[i].Last() as nat)};
  }

  lemma {:induction false} RunSize(chain: seq<Block>, e: nat, a: nat, b: nat)
    requires WellFormed(chain) && a <= b <= |chain|
    ensures |RunKeys(chain, e, a, b)| == b - a
    decreases b
  {
    if a < b {
      RunSize(chain, e, a, b - 1);
      RunKeyIndex(chain, e, a, b - 1, b - 1);
    }
  }

  /** Every entry sits under epoch `e` at the end of a sealed block of that epoch and holds that
      block's true price. */
  ghost predicate Sound(m: Prices, chain: seq<Block>, e: nat, price: Block -> nat)
    requires WellFormed(chain)
  {
    forall k :: k in m ==>
      && k.epoch == e && k.version <= LastVersion(chain)
      && var b := chain[BlockIndex(chain, k.version)];
         b.Last() == k.version && b.epoch == e && Sealed(chain, BlockIndex(chain, k.version))
         && m[k] == price(b)
  }

  /** The part of soundness that speaks of keys only. */
  ghost predicate KeysAreEnds(m: Prices, chain: seq<Block>, e: nat)
    requires WellFormed(chain)
  {
    forall v: nat :: Key(e, v) in m ==>
      v <= LastVersion(chain) && chain[BlockIndex(chain, v)].Last() == v && chain[BlockIndex(chain, v)].epoch == e
  }

  /** Blocks `lo .. hi` are of epoch `e`, at most `n`, and unless there are `n` of them they reach back
      to the first block of the epoch. */
  ghost predicate RunOk(chain: seq<Block>, e: nat, n: nat, lo: nat, hi: nat) {
    && lo <= hi <= |chain| && hi - lo <= n
    && (lo < hi ==> chain[hi - 1].epoch == e && EpochStart(chain, hi - 1) <= lo)
    && (lo < hi ==> hi - lo == n || lo == EpochStart(chain, hi - 1))
  }

  /** The entries are exactly the blocks of such a run. */
  ghost predicate GapFree(m: Prices, chain: seq<Block>, e: nat, n: nat, lo: nat, hi: nat)
    requires WellFormed(chain)
  {
    RunOk(chain, e, n, lo, hi) && m.Keys == RunKeys(chain, e, lo, hi)
  }

  lemma SoundKey(m: Prices, chain: seq<Block>, e: nat, price: Block -> nat, i: nat)
    requires WellFormed(chain) && Sound(m, chain, e, price)
    requires i < |chain| && Key(e, chain[i].Last() as nat) in m
    ensures chain[i].epoch == e && Sealed(chain, i) && m[Key(e, chain[i].Last() as nat)] == price(chain[i])
  {
    BlockIndexUnique(chain, chain[i].Last(), i);
  }

  // ---------- growth of the ledger ----------

  lemma SealedStays(old_: seq<Block>, new_: seq<Block>, v: nat)
    requires WellFormed(old_) && WellFormed(new_) && Grows(old_, new_) && v <= LastVersion(old_)
    requires Sealed(old_, BlockIndex(old_, v))
    ensures v <= LastVersion(new_) && BlockIndex(new_, v) == BlockIndex(old_, v)
    ensures new_[BlockIndex(new_, v)] == old_[BlockIndex(old_, v)] && Sealed(new_, BlockIndex(new_, v))
  {
    BlockIndexUnique(new_, v, BlockIndex(old_, v));
  }

  lemma {:induction false} EpochStartStays(old_: seq<Block>, new_: seq<Block>, k: nat)
    requires Grows(old_, new_) && k < |old_|
    ensures EpochStart(new_, k) == EpochStart(old_, k)
  {
  }

  /** Growth of the ledger keeps both invariants of the cache. */
  lemma {:induction false} SoundSurvivesGrowth(m: Prices, old_: seq<Block>, new_: seq<Block>, e: nat,
      price: Block -> nat)
    requires WellFormed(old_) && WellFormed(new_) && Grows(old_, new_)
    requires Sound(m, old_, e, price)
    ensures Sound(m, new_, e, price)
  {
    forall k | k in m
      ensures k.version <= LastVersion(new_) && new_[BlockIndex(new_, k.version)] == old_[BlockIndex(old_, k.version)]
           && Sealed(new_, BlockIndex(new_, k.version))
    {
      SealedStays(old_, new_, k.version);
    }
  }

  lemma {:induction false} SameRun(c: seq<Block>, d: seq<Block>, e: nat, a: nat, b: nat)
    requires WellFormed(c) && WellFormed(d) && b <= |c| && b <= |d| && forall i :: a <= i < b ==> c[i] == d[i]
    ensures RunKeys(c, e, a, b) == RunKeys(d, e, a, b)
    decreases b
  {
    if a < b { SameRun(c, d, e, a, b - 1); }
  }

  lemma {:induction false} GapFreeSurvivesGrowth(m: Prices, old_: seq<Block>, new_: seq<Block>, e: nat,
      price: Block -> nat, n: nat, lo: nat, hi: nat)
    requires WellFormed(old_) && WellFormed(new_) && Grows(old_, new_)
    requires Sound(m, old_, e, price) && GapFree(m, old_, e, n, lo, hi)
    ensures GapFree(m, new_, e, n, lo, hi)
  {
    forall i | lo <= i < hi ensures new_[i] == old_[i] {
      RunKeyIndex(old_, e, lo, hi, i);
      SoundKey(m, old_, e, price, i);
    }
    SameRun(old_, new_, e, lo, hi);
    if lo < hi { EpochStartStays(old_, new_, hi - 1); }
  }

  // ---------- reading a run back ----------

  lemma {:induction false} RangeSkip(m: Prices, e: nat, from: int, to: int)
    requires -1 <= to <= from
    requires forall v: nat :: to < v <= from ==> Key(e, v) !in m
    ensures RangeRev(m, e, from) == RangeRev(m, e, to)
    decreases from
  {
    if to < from { RangeSkip(m, e, from - 1, to); }
  }

  /** Reading down from the end of block `p - 1` yields the cached blocks `lo .. p`, newest first. */
  lemma {:induction false} RangeOfRun(m: Prices, chain: seq<Block>, e: nat, price: Block -> nat, lo: nat, p: nat)
    requires WellFormed(chain) && Sound(m, chain, e, price)
    requires lo <= p <= |chain| && 0 < p
    requires forall i :: 0 <= i < p ==> (Key(e, chain[i].Last() as nat) in m <==> lo <= i)
    ensures RangeRev(m, e, chain[p - 1].Last()) == Desc(chain, price, lo, p)
    decreases p
  {
    var v := chain[p - 1].Last();
    var below := if p == 1 then -1 else chain[p - 2].Last();
    if p > 1 { assert Linked(chain, p - 1); }
    var next := if lo == p then v else v - 1;
    forall w: nat | below < w <= next ensures Key(e, w) !in m {
      if Key(e, w) in m { BlockIndexUnique(chain, w, p - 1); }
    }
    RangeSkip(m, e, next, below);
    if lo < p { SoundKey(m, chain, e, price, p - 1); }
    if p > 1 { RangeOfRun(m, chain, e, price, if lo == p then lo - 1 else lo, p - 1); }
  }

  // ---------- eviction ----------

  /** The first of the keys of blocks `a .. b` and then `c .. d` is the end of block `a`. */
  lemma DropOneOfRuns(chain: seq<Block>, e: nat, a: nat, b: nat, c: nat, d: nat)
    requires WellFormed(chain) && a < b <= c <= d <= |chain|
    ensures var keys := RunKeys(chain, e, a, b) + RunKeys(chain, e, c, d);
      keys != {} && keys - {FirstKey(keys)} == RunKeys(chain, e, a + 1, b) + RunKeys(chain, e, c, d)
  {
    var older, newer := RunKeys(chain, e, a, b), RunKeys(chain, e, c, d);
    var keys, first := older + newer, Key(e, chain[a].Last() as nat);
    RunExtendsDown(chain, e, a, b);
    RunKeyIndex(chain, e, c, d, a);
    assert first in keys;
    forall k | k in keys ensures KeyLe(first, k) {
      var i;
      if k in older { i := RunMember(chain, e, a, b, k); } else { i := RunMember(chain, e, c, d, k); }
      if a < i { VersionsIncrease(chain, a, i); }
    }
    FirstIsUnique(keys, first, FirstKey(keys));
  }

  lemma {:induction false} DropPrefix(chain: seq<Block>, e: nat, a: nat, b: nat, c: nat, d: nat, t: nat)
    requires WellFormed(chain) && a <= b <= c <= d <= |chain| && t <= b - a
    ensures DropFirst(RunKeys(chain, e, a, b) + RunKeys(chain, e, c, d), t)
         == RunKeys(chain, e, a + t, b) + RunKeys(chain, e, c, d)
    decreases t
  {
    if t > 0 {
      DropOneOfRuns(chain, e, a, b, c, d);
      DropPrefix(chain, e, a + 1, b, c, d, t - 1);
    }
  }
}
