/** Whole runs of the gas price endpoint: any interleaving of the two critical sections of any number
    of requests, over a ledger that grows in between. */
module GasService {
  import opened Wrappers
  import opened Chain
  import opened GasPrices
  import opened GasCache
  import opened GasEstimator

  /** A request holds the read lock for a `Peek` and, if that found nothing, later the write lock for
      a `Compute`, during which some versions may be unreadable. */
  datatype Section =
    | Peek(epoch: nat, now: nat)
    | Compute(epoch: nat, now: nat, chain: seq<Block>, version: nat, unreadable: set<nat>)

  /** The ledger only grows from `chain` on. */
  ghost predicate Timeline(sections: seq<Section>, cfg: GasConfig, onchain: nat -> OnChain, price: Block -> nat,
      chain: seq<Block>) {
    if sections == [] then true
    else match sections[0]
      case Peek(_, _) => Timeline(sections[1..], cfg, onchain, price, chain)
      case Compute(_, _, ledger, v, _) =>
        && Ledger(ledger, cfg, onchain, price) && v <= LastVersion(ledger) && Grows(chain, ledger)
        && Timeline(sections[1..], cfg, onchain, price, ledger)
  }

  /** The last ledger anyone looked at. */
  ghost function Final(sections: seq<Section>, chain: seq<Block>): seq<Block> {
    if sections == [] then chain
    else Final(sections[1..], if sections[0].Compute? then sections[0].chain else chain)
  }

  /** Every lookup succeeds. */
  ghost predicate Readable(sections: seq<Section>) {
    forall i :: 0 <= i < |sections| && sections[i].Compute? ==> sections[i].unreadable == {}
  }

  /** Every lookup succeeds and ledger versions never go back from `version`. */
  ghost predicate Steady(sections: seq<Section>, version: nat) {
    Readable(sections) && Ascending(sections, version)
  }

  ghost predicate Ascending(sections: seq<Section>, version: nat) {
    if sections == [] then true
    else match sections[0]
      case Peek(_, _) => Ascending(sections[1..], version)
      case Compute(_, _, _, v, _) => version <= v && Ascending(sections[1..], v)
  }

  lemma {:induction false} TimelineGrows(sections: seq<Section>, cfg: GasConfig, onchain: nat -> OnChain,
      price: Block -> nat, chain: seq<Block>)
    requires Timeline(sections, cfg, onchain, price, chain) && |chain| >= 1
    ensures Grows(chain, Final(sections, chain))
  {
    if sections != [] {
      var next := if sections[0].Compute? then sections[0].chain else chain;
      TimelineGrows(sections[1..], cfg, onchain, price, next);
      if sections[0].Compute? { GrowsTransitive(chain, next, Final(sections, chain)); }
    }
  }

  lemma PaidSoFar(sections: seq<Section>, cfg: GasConfig, onchain: nat -> OnChain, price: Block -> nat,
      chain: seq<Block>)
    requires Timeline(sections, cfg, onchain, price, chain) && |chain| >= 1
    ensures PaidMinimum(Final(sections, chain), onchain) ==> PaidMinimum(chain, onchain)
  {
    TimelineGrows(sections, cfg, onchain, price, chain);
    PaidMinimumBefore(chain, Final(sections, chain), onchain);
  }

  // ---------- the same service without a price map ----------

  /** The answers of a run, from the ledgers, the last result and two block numbers. */
  ghost function SlimRun(cfg: GasConfig, onchain: nat -> OnChain, price: Block -> nat, st: Slim,
      sections: seq<Section>): seq<Option<GasEstimation>>
    requires cfg.Sanitized()
    decreases |sections|
  {
    if sections == [] then []
    else
      match sections[0]
      case Peek(epoch, now) => [SlimCached(cfg, st, epoch, now)] + SlimRun(cfg, onchain, price, st, sections[1..])
      case Compute(epoch, now, chain, v, _) =>
        if !WellFormed(chain) || v > LastVersion(chain) then []
        else
          var x := SlimLocked(cfg, onchain, price, st, chain, epoch, v, now);
          [Some(x.answer)] + SlimRun(cfg, onchain, price, x.state, sections[1..])
  }

  // ---------- what an answer is worth ----------

  /** `r` is what the section's ledger alone gives for its epoch and version. */
  ghost predicate IsReference(s: Section, cfg: GasConfig, onchain: nat -> OnChain, price: Block -> nat,
      r: GasEstimation)
    requires cfg.Sanitized()
  {
    && s.Compute? && WellFormed(s.chain) && s.version <= LastVersion(s.chain)
    && r == Reference(s.chain, cfg, onchain(s.epoch).minGas, price, s.epoch, s.version)
  }

  /** Some section `j` up to `i`, of the same epoch and not expired unless it is `i` itself, has `r`
      as its cache-free estimate. */
  ghost predicate Explained(sections: seq<Section>, cfg: GasConfig, onchain: nat -> OnChain, price: Block -> nat,
      i: nat, r: GasEstimation)
    requires cfg.Sanitized() && i < |sections|
  {
    exists j :: 0 <= j <= i && IsReference(sections[j], cfg, onchain, price, r)
      && sections[j].epoch == sections[i].epoch
      && (j == i || sections[i].now < sections[j].now + cfg.expirationMs)
  }

  /** The three numbers are in order, not below the minimum price if everyone paid it, and, in a steady
      run, explained. */
  ghost predicate AnswerFits(sections: seq<Section>, cfg: GasConfig, onchain: nat -> OnChain, price: Block -> nat,
      steady: bool, paid: bool, i: nat, answer: Option<GasEstimation>)
    requires cfg.Sanitized() && i < |sections|
  {
    && (sections[i].Compute? ==> answer.Some?)
    && (answer.Some? ==>
          && answer.value.Ordered() && (paid ==> answer.value.low >= onchain(sections[i].epoch).minGas)
          && (steady ==> Explained(sections, cfg, onchain, price, i, answer.value)))
  }

  ghost predicate AllFit(sections: seq<Section>, cfg: GasConfig, onchain: nat -> OnChain, price: Block -> nat,
      steady: bool, paid: bool, answers: seq<Option<GasEstimation>>)
    requires cfg.Sanitized()
  {
    && |answers| <= |sections|
    && forall i :: 0 <= i < |answers| ==> AnswerFits(sections, cfg, onchain, price, steady, paid, i, answers[i])
  }

  lemma OneMoreFits(sections: seq<Section>, cfg: GasConfig, onchain: nat -> OnChain, price: Block -> nat,
      steady: bool, paid: bool, answers: seq<Option<GasEstimation>>, a: Option<GasEstimation>,
      rest: seq<Option<GasEstimation>>)
    requires cfg.Sanitized() && AllFit(sections, cfg, onchain, price, steady, paid, answers) && |answers| < |sections|
    requires AnswerFits(sections, cfg, onchain, price, steady, paid, |answers|, a)
    ensures AllFit(sections, cfg, onchain, price, steady, paid, answers + [a])
    ensures answers + ([a] + rest) == answers + [a] + rest
  {
  }

  /** The cache holds at most the history limit of entries, all of one epoch and all true prices; while
      lookups succeed they are a gap-free run of blocks, full or reaching back to the epoch's first block. */
  ghost predicate CacheFits(cfg: GasConfig, price: Block -> nat, readable: bool, chain: seq<Block>, prices: Prices,
      epoch: Option<nat>) {
    && |prices| <= cfg.maxHistory && (epoch.None? ==> prices == map[])
    && (epoch.Some? ==> WellFormed(chain) && Sound(prices, chain, epoch.value, price))
    && (epoch.Some? && readable ==>
        exists lo: nat, hi: nat :: GapFree(prices, chain, epoch.value, cfg.maxHistory, lo, hi))
  }

  // ---------- runs ----------

  /** What is known between two sections. */
  ghost predicate Between(e: Estimator, chain: seq<Block>, version: nat, readable: bool, steady: bool)
    reads e
  {
    && e.Valid(chain) && version <= LastVersion(chain)
    && (readable ==> e.Tight(chain))
    && (steady ==> e.hi <= WindowEnd(BlockIndex(chain, version)))
  }

  /** The stored estimate is the reference of the section at `last`. */
  ghost predicate Remembers(e: Estimator, sections: seq<Section>, i: nat, last: nat)
    requires e.cfg.Sanitized() && i <= |sections|
    reads e
  {
    e.estimation.Some? ==>
      && last < i && IsReference(sections[last], e.cfg, e.onchain, e.price, e.estimation.value)
      && e.lastEpoch == Some(sections[last].epoch) && e.lastTime == Some(sections[last].now)
  }

  /** In every run, in whatever order versions come and whichever versions are unreadable during a call:
      answers are ordered and respect the minimum, and the cache is true.  While lookups succeed every
      answer is exactly that of the service without a price map, and the cache is gap-free.  If moreover
      versions never go back, each answer is the cache-free estimate of its own ledger, or of an earlier
      request of the same epoch that has not expired.  (The only version a call looks up twice is the
      ledger version, when the first lookup fails; the two lookups then agree.) */
  method Serve(cfg: GasConfig, onchain: nat -> OnChain, ghost price: Block -> nat, start: seq<Block>,
      sections: seq<Section>)
    returns (answers: seq<Option<GasEstimation>>, prices: Prices, epoch: Option<nat>)
    requires cfg.Sanitized() && Ledger(start, cfg, onchain, price)
    requires Timeline(sections, cfg, onchain, price, start)
    ensures |answers| == |sections|
    ensures AllFit(sections, cfg, onchain, price, Steady(sections, 0),
      PaidMinimum(Final(sections, start), onchain), answers)
    ensures Readable(sections) ==> answers == SlimRun(cfg, onchain, price, Slim(None, 0, 0), sections)
    ensures CacheFits(cfg, price, Readable(sections), Final(sections, start), prices, epoch)
  {
    ghost var slim := (st: Slim, i: nat) =>
      if i <= |sections| then SlimRun(cfg, onchain, price, st, sections[i..]) else [];
    assert sections[0..] == sections;
    answers, prices, epoch := ServeAll(cfg, onchain, price, start, sections, slim);
  }

  /** `slim(st, i)` is what is still to be answered from section `i` on. */
  ghost predicate IsSlim(slim: (Slim, nat) -> seq<Option<GasEstimation>>, cfg: GasConfig, onchain: nat -> OnChain,
      price: Block -> nat, sections: seq<Section>)
    requires cfg.Sanitized()
  {
    forall st: Slim, i: nat {:trigger SlimRun(cfg, onchain, price, st, sections[i..])} | i <= |sections| ::
      slim(st, i) == SlimRun(cfg, onchain, price, st, sections[i..])
  }

  lemma SlimEnds(slim: (Slim, nat) -> seq<Option<GasEstimation>>, cfg: GasConfig, onchain: nat -> OnChain,
      price: Block -> nat, sections: seq<Section>, st: Slim)
    requires cfg.Sanitized() && IsSlim(slim, cfg, onchain, price, sections)
    ensures slim(st, |sections|) == []
  {
    assert SlimRun(cfg, onchain, price, st, sections[|sections|..]) == [];
  }

  /** What holds after the sections that `answers` are the answers of. */
  ghost predicate SoFar(e: Estimator, sections: seq<Section>, chain: seq<Block>, version: nat, last: nat,
      readable: bool, steady: bool, paid: bool, answers: seq<Option<GasEstimation>>,
      slim: (Slim, nat) -> seq<Option<GasEstimation>>)
    requires |answers| <= |sections|
    reads e
  {
    var i := |answers|;
    && Between(e, chain, version, readable, steady)
    && Timeline(sections[i..], e.cfg, e.onchain, e.price, chain)
    && (steady ==> Ascending(sections[i..], version) && Remembers(e, sections, i, last))
    && AllFit(sections, e.cfg, e.onchain, e.price, steady, paid, answers)
    && (readable ==> answers + slim(e.View(), i) == slim(Slim(None, 0, 0), 0))
  }

  method OneMore(e: Estimator, sections: seq<Section>, ghost chain: seq<Block>, ghost version: nat, ghost last: nat,
      ghost readable: bool, ghost steady: bool, ghost paid: bool, answers: seq<Option<GasEstimation>>,
      ghost slim: (Slim, nat) -> seq<Option<GasEstimation>>)
    returns (answer: Option<GasEstimation>, ghost chain': seq<Block>, ghost version': nat, ghost last': nat)
    requires |answers| < |sections| && (steady ==> readable) && (readable ==> Readable(sections))
    requires SoFar(e, sections, chain, version, last, readable, steady, paid, answers, slim)
    requires paid ==> PaidMinimum(Final(sections[|answers|..], chain), e.onchain)
    requires IsSlim(slim, e.cfg, e.onchain, e.price, sections)
    modifies e
    ensures SoFar(e, sections, chain', version', last', readable, steady, paid, answers + [answer], slim)
    ensures Final(sections[|answers| + 1..], chain') == Final(sections[|answers|..], chain)
  {
    var i := |answers|;
    answer, chain', version', last' := Step(e, sections, i, chain, version, last, readable, steady, paid, slim);
    OneMoreFits(sections, e.cfg, e.onchain, e.price, steady, paid, answers, answer, slim(e.View(), i + 1));
  }

  method ServeAll(cfg: GasConfig, onchain: nat -> OnChain, ghost price: Block -> nat, start: seq<Block>,
      sections: seq<Section>, ghost slim: (Slim, nat) -> seq<Option<GasEstimation>>)
    returns (answers: seq<Option<GasEstimation>>, prices: Prices, epoch: Option<nat>)
    requires cfg.Sanitized() && Ledger(start, cfg, onchain, price) && IsSlim(slim, cfg, onchain, price, sections)
    requires Timeline(sections, cfg, onchain, price, start)
    ensures |answers| == |sections|
    ensures AllFit(sections, cfg, onchain, price, Steady(sections, 0),
      PaidMinimum(Final(sections, start), onchain), answers)
    ensures Readable(sections) ==> answers == slim(Slim(None, 0, 0), 0)
    ensures CacheFits(cfg, price, Readable(sections), Final(sections, start), prices, epoch)
  {
    ghost var chain, version, last := start, 0, 0;
    ghost var readable, steady := Readable(sections), Steady(sections, 0);
    ghost var paid := PaidMinimum(Final(sections, start), onchain);
    var e := Begin(cfg, onchain, price, start, sections, readable, steady);
    answers := [];
    for i := 0 to |sections|
      invariant |answers| == i && e.cfg == cfg && e.onchain == onchain && e.price == price
      invariant SoFar(e, sections, chain, version, last, readable, steady, paid, answers, slim)
      invariant Final(sections[i..], chain) == Final(sections, start)
    {
      var answer;
      answer, chain, version, last := OneMore(e, sections, chain, version, last, readable, steady, paid, answers, slim);
      answers := answers + [answer];
    }
    SlimEnds(slim, cfg, onchain, price, sections, e.View());
    prices, epoch := e.prices, e.lastEpoch;
    CacheFitsAtEnd(e, chain, version, readable, steady);
  }

  method Begin(cfg: GasConfig, onchain: nat -> OnChain, ghost price: Block -> nat, start: seq<Block>,
      sections: seq<Section>, ghost readable: bool, ghost steady: bool)
    returns (e: Estimator)
    requires cfg.Sanitized() && Ledger(start, cfg, onchain, price)
    ensures fresh(e) && e.cfg == cfg && e.onchain == onchain && e.price == price
    ensures Between(e, start, 0, readable, steady) && Remembers(e, sections, 0, 0) && e.View() == Slim(None, 0, 0)
  {
    e := new Estimator(cfg, onchain, price);
  }

  lemma CacheFitsAtEnd(e: Estimator, chain: seq<Block>, version: nat, readable: bool, steady: bool)
    requires Between(e, chain, version, readable, steady)
    ensures CacheFits(e.cfg, e.price, readable, chain, e.prices, e.lastEpoch)
  {
  }

  lemma CachedFits(e: Estimator, sections: seq<Section>, i: nat, last: nat)
    requires e.cfg.Sanitized() && i < |sections| && Remembers(e, sections, i, last)
    ensures var cached := e.CachedEstimation(sections[i].epoch, sections[i].now);
      cached.Some? ==> Explained(sections, e.cfg, e.onchain, e.price, i, cached.value)
  {
  }

  method Step(e: Estimator, sections: seq<Section>, i: nat, ghost chain: seq<Block>, ghost version: nat,
      ghost last: nat, ghost readable: bool, ghost steady: bool, ghost paid: bool,
      ghost slim: (Slim, nat) -> seq<Option<GasEstimation>>)
    returns (answer: Option<GasEstimation>, ghost chain': seq<Block>, ghost version': nat, ghost last': nat)
    requires i < |sections| && Between(e, chain, version, readable, steady)
    requires (steady ==> readable) && (readable && sections[i].Compute? ==> sections[i].unreadable == {})
    requires Timeline(sections[i..], e.cfg, e.onchain, e.price, chain)
    requires steady ==> Ascending(sections[i..], version) && Remembers(e, sections, i, last)
    requires paid ==> PaidMinimum(Final(sections[i..], chain), e.onchain)
    requires IsSlim(slim, e.cfg, e.onchain, e.price, sections)
    modifies e
    ensures Between(e, chain', version', readable, steady)
    ensures Timeline(sections[i + 1..], e.cfg, e.onchain, e.price, chain')
    ensures Final(sections[i + 1..], chain') == Final(sections[i..], chain)
    ensures steady ==> Ascending(sections[i + 1..], version') && Remembers(e, sections, i + 1, last')
    ensures AnswerFits(sections, e.cfg, e.onchain, e.price, steady, paid, i, answer)
    ensures readable ==> slim(old(e.View()), i) == [answer] + slim(e.View(), i + 1)
  {
    assert sections[i..][1..] == sections[i + 1..] && sections[i..][0] == sections[i];
    if sections[i].Peek? {
      PaidSoFar(sections[i..], e.cfg, e.onchain, e.price, chain);
      chain', version', last' := chain, version, last;
      answer := e.CachedEstimation(sections[i].epoch, sections[i].now);
      PeekFits(e, sections, i, chain, last, steady, paid);
    } else {
      PaidSoFar(sections[i + 1..], e.cfg, e.onchain, e.price, sections[i].chain);
      chain', version' := sections[i].chain, sections[i].version;
      answer, last' := Locked(e, sections, i, chain, version, last, readable, steady, paid);
    }
    if readable { SlimStep(slim, e.cfg, e.onchain, e.price, sections, i, old(e.View()), e.View(), answer); }
  }

  lemma SlimStep(slim: (Slim, nat) -> seq<Option<GasEstimation>>, cfg: GasConfig, onchain: nat -> OnChain,
      price: Block -> nat, sections: seq<Section>, i: nat, st: Slim, st': Slim, answer: Option<GasEstimation>)
    requires cfg.Sanitized() && IsSlim(slim, cfg, onchain, price, sections) && i < |sections|
    requires match sections[i]
      case Peek(epoch, now) => st' == st && answer == SlimCached(cfg, st, epoch, now)
      case Compute(epoch, now, chain, v, _) =>
        && WellFormed(chain) && v <= LastVersion(chain) && answer.Some?
        && SlimLocked(cfg, onchain, price, st, chain, epoch, v, now) == Served(st', answer.value)
    ensures slim(st, i) == [answer] + slim(st', i + 1)
  {
    assert sections[i..][1..] == sections[i + 1..] && sections[i..][0] == sections[i];
    assert SlimRun(cfg, onchain, price, st, sections[i..])
      == [answer] + SlimRun(cfg, onchain, price, st', sections[i + 1..]);
  }

  lemma PeekFits(e: Estimator, sections: seq<Section>, i: nat, chain: seq<Block>, last: nat, steady: bool, paid: bool)
    requires i < |sections| && sections[i].Peek? && e.Valid(chain) && (paid ==> PaidMinimum(chain, e.onchain))
    requires steady ==> Remembers(e, sections, i, last)
    ensures AnswerFits(sections, e.cfg, e.onchain, e.price, steady, paid, i,
      e.CachedEstimation(sections[i].epoch, sections[i].now))
  {
  }

  method Locked(e: Estimator, sections: seq<Section>, i: nat, ghost chain: seq<Block>, ghost version: nat,
      ghost last: nat, ghost readable: bool, ghost steady: bool, ghost paid: bool)
    returns (answer: Option<GasEstimation>, ghost last': nat)
    requires i < |sections| && sections[i].Compute? && Between(e, chain, version, readable, steady)
    requires Ledger(sections[i].chain, e.cfg, e.onchain, e.price)
    requires sections[i].version <= LastVersion(sections[i].chain)
    requires Grows(chain, sections[i].chain) && (paid ==> PaidMinimum(sections[i].chain, e.onchain))
    requires (steady ==> readable) && (readable ==> sections[i].unreadable == {})
    requires steady ==> Remembers(e, sections, i, last) && version <= sections[i].version
    modifies e
    ensures Between(e, sections[i].chain, sections[i].version, readable, steady)
    ensures steady ==> Remembers(e, sections, i + 1, last')
    ensures AnswerFits(sections, e.cfg, e.onchain, e.price, steady, paid, i, answer)
    ensures readable ==>
      && answer.Some?
      && SlimLocked(e.cfg, e.onchain, e.price, old(e.View()), sections[i].chain, sections[i].epoch,
        sections[i].version, sections[i].now) == Served(e.View(), answer.value)
  {
    var Compute(epoch, now, ledger, v, unreadable) := sections[i];
    e.SurvivesGrowth(chain, ledger);
    if steady {
      BlockIndexMonotone(chain, ledger, version, v);
      CachedFits(e, sections, i, last);
    }
    ghost var cached := e.CachedEstimation(epoch, now);
    var r := e.EstimateLocked(ledger, unreadable, epoch, v, now);
    answer := Some(r);
    last' := if cached.None? then i else last;
    assert steady && cached.None? ==> IsReference(sections[i], e.cfg, e.onchain, e.price, r);
  }
}
