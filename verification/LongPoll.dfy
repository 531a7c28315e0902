/** Admission to long polling on a transaction hash: one shared atomic counter. */
module LongPoll {
  /** `Refused` requests have added one and not yet taken it back. */
  datatype Stage = Waiting | Polling | Refused | Finished

  predicate Active(s: Stage) { s.Polling? || s.Refused? }

  predicate IsPolling(s: Stage) { s.Polling? }

  function Count(stages: seq<Stage>, which: Stage -> bool, n: nat): (c: nat)
    requires n <= |stages|
    ensures c <= n
  {
    if n == 0 then 0 else Count(stages, which, n - 1) + (if which(stages[n - 1]) then 1 else 0)
  }

  function Weight(s: Stage, which: Stage -> bool): nat { if which(s) then 1 else 0 }

  lemma {:induction false} CountUpdate(stages: seq<Stage>, which: Stage -> bool, i: nat, s: Stage, n: nat)
    requires i < |stages| && n <= |stages|
    ensures Count(stages[i := s], which, n)
         == Count(stages, which, n) + (if i < n then Weight(s, which) - Weight(stages[i], which) else 0)
  {
    if n > 0 { CountUpdate(stages, which, i, s, n - 1); }
  }

  lemma {:induction false} PollingAreActive(stages: seq<Stage>, n: nat)
    requires n <= |stages|
    ensures Count(stages, IsPolling, n) <= Count(stages, Active, n)
  {
    if n > 0 { PollingAreActive(stages, n - 1); }
  }

  class Gate {
    const limit: nat                // wait_by_hash_max_active_connections
    var counter: int
    var stages: seq<Stage>

    constructor (limit: nat, n: nat)
      ensures Inv() && this.limit == limit && |stages| == n && forall p :: 0 <= p < n ==> stages[p].Waiting?
    {
      this.limit, counter := limit, 0;
      stages := seq(n, _ => Waiting);
      new;
      NoneActive(stages, n);
    }

    /** The counter is the number of requests between their add and their sub; at most `limit` of them
        are long-polling. */
    ghost predicate Inv()
      reads this
    {
      counter == Count(stages, Active, |stages|) && Count(stages, IsPolling, |stages|) <= limit
    }

    /** `fetch_add`, then a comparison of what it returned. */
    method Arrive(p: nat)
      requires Inv() && p < |stages| && stages[p].Waiting?
      modifies this
      ensures Inv() && counter == old(counter) + 1
      ensures stages == old(stages)[p := if old(Count(stages, Active, |stages|)) >= limit then Refused else Polling]
    {
      var before := counter;
      counter := counter + 1;
      var s := if before >= limit then Refused else Polling;
      CountUpdate(stages, Active, p, s, |stages|);
      CountUpdate(stages, IsPolling, p, s, |stages|);
      PollingAreActive(stages, |stages|);
      stages := stages[p := s];
    }

    /** `fetch_sub`, by a refused request right away and by a long-polling one at the end; the counter
        was positive. */
    method Leave(p: nat)
      requires Inv() && p < |stages| && Active(stages[p])
      modifies this
      ensures Inv() && 0 <= counter == old(counter) - 1 && stages == old(stages)[p := Finished]
    {
      CountUpdate(stages, Active, p, Finished, |stages|);
      CountUpdate(stages, IsPolling, p, Finished, |stages|);
      counter := counter - 1;
      stages := stages[p := Finished];
    }
  }

  lemma {:induction false} NoneActive(stages: seq<Stage>, n: nat)
    requires n <= |stages| && forall p :: 0 <= p < |stages| ==> stages[p].Waiting?
    ensures Count(stages, Active, n) == 0 && Count(stages, IsPolling, n) == 0
  {
    if n > 0 { NoneActive(stages, n - 1); }
  }

  /** The next step of request `p`: add and compare, then take back. */
  function Next(limit: nat, stages: seq<Stage>, p: nat): seq<Stage> {
    if p >= |stages| || stages[p].Finished? then stages
    else if Active(stages[p]) then stages[p := Finished]
    else stages[p := if Count(stages, Active, |stages|) >= limit then Refused else Polling]
  }

  /** The counter is the number of requests between add and sub, and at most `limit` long-poll. */
  ghost predicate Bounded(limit: nat, stages: seq<Stage>, counter: int) {
    0 <= counter == Count(stages, Active, |stages|) && Count(stages, IsPolling, |stages|) <= limit
  }

  /** Any number of requests, any interleaving: each step is the next one of some request. */
  method Run(limit: nat, n: nat, steps: seq<nat>) returns (trace: seq<seq<Stage>>, counters: seq<int>)
    ensures |trace| == |counters| == |steps| + 1 && trace[0] == seq(n, _ => Waiting)
    ensures forall k :: 0 <= k < |steps| ==> trace[k + 1] == Next(limit, trace[k], steps[k])
    ensures forall k :: 0 <= k <= |steps| ==> Bounded(limit, trace[k], counters[k])
  {
    var g := new Gate(limit, n);
    trace, counters := [g.stages], [g.counter];
    for k := 0 to |steps|
      invariant g.Inv() && g.limit == limit && |trace| == |counters| == k + 1
      invariant trace[0] == seq(n, _ => Waiting) && trace[k] == g.stages
      invariant forall j :: 0 <= j < k ==> trace[j + 1] == Next(limit, trace[j], steps[j])
      invariant forall j :: 0 <= j <= k ==> Bounded(limit, trace[j], counters[j])
    {
      var p := steps[k];
      if p < |g.stages| {
        if g.stages[p].Waiting? { g.Arrive(p); } else if Active(g.stages[p]) { g.Leave(p); }
      }
      trace, counters := trace + [g.stages], counters + [g.counter];
    }
  }

  /** A request can be refused while nobody is long-polling: a refused request still counts until its
      sub, so the one that arrives in between is refused as well. */
  method RefusedWithNobodyPolling() returns (trace: seq<seq<Stage>>)
    ensures |trace| == 2 && |trace[0]| == 3 && Count(trace[0], IsPolling, 3) == 0 && trace[0][2].Waiting?
    ensures |trace[1]| == 3 && trace[1][2].Refused?
  {
    var g := new Gate(1, 3);
    assert g.stages == [Waiting, Waiting, Waiting];
    CountThree(g.stages, Active);
    g.Arrive(0);
    CountThree(g.stages, Active);
    g.Arrive(1);
    g.Leave(0);
    CountThree(g.stages, Active);
    CountThree(g.stages, IsPolling);
    trace := [g.stages];
    g.Arrive(2);
    trace := trace + [g.stages];
  }

  lemma CountThree(s: seq<Stage>, which: Stage -> bool)
    requires |s| == 3
    ensures Count(s, which, 3) == Weight(s[0], which) + Weight(s[1], which) + Weight(s[2], which)
  {
    assert Count(s, which, 1) == Weight(s[0], which);
  }
}
