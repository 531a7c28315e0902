/** Handing out ports to concurrent test processes through a counter file guarded by a lock file. */
module Ports {
  import opened Wrappers

  const RANGE := 20000
  const FIRST_PORT := 10000
  const MAX_PORT_RETRIES := 1000
  const MAX_LOCK_RETRIES := 100

  /** A permutation of the port range, the same in every process. */
  ghost predicate PortVector(ports: seq<nat>) {
    && |ports| == RANGE
    && (forall i :: 0 <= i < RANGE ==> FIRST_PORT <= ports[i] < FIRST_PORT + RANGE)
    && (forall i, j :: 0 <= i < j < RANGE ==> ports[i] != ports[j])
  }

  datatype Bound = Bound(port: nat, counter: nat)

  /** The first of `n` attempts that finds its port free, or `n`. */
  function FirstFree(free: nat -> bool, n: nat): (k: nat)
    ensures k <= n && (k < n ==> free(k)) && forall j :: 0 <= j < k ==> !free(j)
  {
    if n == 0 then 0
    else
      var k := FirstFree(free, n - 1);
      if k == n - 1 && !free(k) then n else k
  }

  /** Try the ports from the counter on, wrapping at the end of the vector, until one is free. */
  method BindPortFromCounter(ports: seq<nat>, start: nat, free: nat -> bool) returns (r: Option<Bound>, tried: nat)
    requires |ports| == RANGE && start < RANGE
    ensures tried <= MAX_PORT_RETRIES && forall k :: 0 <= k < tried - 1 ==> !free(k)
    ensures r.Some? ==>
      && tried >= 1 && free(tried - 1)
      && r.value == Bound(ports[(start + tried - 1) % RANGE], (start + tried) % RANGE)
    ensures r.None? ==> tried == MAX_PORT_RETRIES && !free(tried - 1)
  {
    var counter := start;
    for attempt := 0 to MAX_PORT_RETRIES
      invariant counter == (start + attempt) % RANGE && forall k :: 0 <= k < attempt ==> !free(k)
    {
      var port := ports[counter];
      counter := counter + 1;
      if counter == |ports| { counter := 0; }
      if free(attempt) { return Some(Bound(port, counter)), attempt + 1; }
    }
    return None, MAX_PORT_RETRIES;
  }

  // ---------- the log of all attempts ----------

  /** One bind attempt, in the order they happened; `counted` is false if its process ended up without
      any port and therefore left the counter as it was. */
  datatype Attempt = Attempt(owner: nat, position: nat, port: Option<nat>, counted: bool)

  function Counted(log: seq<Attempt>, n: nat): nat
    requires n <= |log|
  {
    if n == 0 then 0 else Counted(log, n - 1) + (if log[n - 1].counted then 1 else 0)
  }

  function Total(log: seq<Attempt>): nat { Counted(log, |log|) }

  /** Counted attempts go through the positions one by one, from `base` on. */
  ghost predicate AttemptOk(ports: seq<nat>, base: nat, log: seq<Attempt>, i: nat)
    requires i < |log| && |ports| == RANGE
  {
    && (log[i].counted ==> log[i].position == (base + Counted(log, i)) % RANGE)
    && (log[i].port.Some? ==> log[i].counted && log[i].position < RANGE && log[i].port.value == ports[log[i].position])
  }

  ghost predicate LogOk(ports: seq<nat>, base: nat, log: seq<Attempt>)
    requires |ports| == RANGE
  {
    forall i :: 0 <= i < |log| ==> AttemptOk(ports, base, log, i)
  }

  lemma {:induction false} CountedPrefix(a: seq<Attempt>, b: seq<Attempt>, n: nat)
    requires n <= |a| && a <= b
    ensures Counted(b, n) == Counted(a, n)
  {
    if n > 0 { CountedPrefix(a, b, n - 1); }
  }

  lemma {:induction false} CountedGrows(log: seq<Attempt>, i: nat, j: nat)
    requires i <= j <= |log|
    ensures Counted(log, i) <= Counted(log, j) <= Counted(log, i) + (j - i)
    decreases j
  {
    if i < j { CountedGrows(log, i, j - 1); }
  }

  lemma AppendOne(ports: seq<nat>, base: nat, log: seq<Attempt>, a: Attempt)
    requires |ports| == RANGE && LogOk(ports, base, log)
    requires a.counted ==> a.position == (base + Total(log)) % RANGE
    requires a.port.Some? ==> a.counted && a.port.value == ports[a.position]
    ensures LogOk(ports, base, log + [a]) && Total(log + [a]) == Total(log) + (if a.counted then 1 else 0)
  {
    var log' := log + [a];
    CountedPrefix(log, log', |log|);
    forall i | 0 <= i < |log'| ensures AttemptOk(ports, base, log', i) {
      CountedPrefix(log, log', if i < |log| then i else |log|);
      if i < |log| { assert AttemptOk(ports, base, log, i); }
    }
  }

  lemma WrapAdd(t: nat, k: nat)
    ensures (t % RANGE + k) % RANGE == (t + k) % RANGE
  {
  }

  /** `n` attempts without a port, from position `start` on. */
  function AppendTried(log: seq<Attempt>, owner: nat, start: nat, n: nat, counted: bool): (r: seq<Attempt>)
    ensures log <= r
  {
    if n == 0 then log
    else AppendTried(log, owner, start, n - 1, counted) + [Attempt(owner, (start + n - 1) % RANGE, None, counted)]
  }

  lemma {:induction false} TriedOk(ports: seq<nat>, base: nat, log: seq<Attempt>, owner: nat, start: nat, n: nat,
      counted: bool)
    requires |ports| == RANGE && LogOk(ports, base, log) && start == (base + Total(log)) % RANGE
    ensures var log' := AppendTried(log, owner, start, n, counted);
      LogOk(ports, base, log') && Total(log') == Total(log) + (if counted then n else 0)
  {
    if n > 0 {
      TriedOk(ports, base, log, owner, start, n - 1, counted);
      WrapAdd(base + Total(log), n - 1);
      AppendOne(ports, base, AppendTried(log, owner, start, n - 1, counted),
        Attempt(owner, (start + n - 1) % RANGE, None, counted));
    }
  }

  function WithSuccess(log: seq<Attempt>, owner: nat, start: nat, tried: nat, port: nat): (r: seq<Attempt>)
    requires tried >= 1
    ensures log <= r
  {
    AppendTried(log, owner, start, tried - 1, true) + [Attempt(owner, (start + tried - 1) % RANGE, Some(port), true)]
  }

  lemma SuccessOk(ports: seq<nat>, base: nat, log: seq<Attempt>, owner: nat, start: nat, tried: nat, b: Bound)
    requires |ports| == RANGE && LogOk(ports, base, log) && start == (base + Total(log)) % RANGE && tried >= 1
    requires b == Bound(ports[(start + tried - 1) % RANGE], (start + tried) % RANGE)
    ensures var log' := WithSuccess(log, owner, start, tried, b.port);
      LogOk(ports, base, log') && b.counter == (base + Total(log')) % RANGE && InLog(log', owner, b.port)
  {
    var mid := AppendTried(log, owner, start, tried - 1, true);
    var a := Attempt(owner, (start + tried - 1) % RANGE, Some(b.port), true);
    TriedOk(ports, base, log, owner, start, tried - 1, true);
    WrapAdd(base + Total(log), tried - 1);
    WrapAdd(base + Total(log), tried);
    AppendOne(ports, base, mid, a);
    assert (mid + [a])[|mid|] == a;
  }

  /** Ports handed out fewer than 20000 attempts apart are different, whoever made the attempts in
      between and whether or not they ended in a panic. */
  lemma NearbyPortsDiffer(ports: seq<nat>, base: nat, log: seq<Attempt>, i: nat, j: nat)
    requires PortVector(ports) && LogOk(ports, base, log)
    requires i < j < |log| && j - i < RANGE && log[i].port.Some? && log[j].port.Some?
    ensures log[i].port != log[j].port
  {
    assert AttemptOk(ports, base, log, i) && AttemptOk(ports, base, log, j);
    CountedGrows(log, i + 1, j);
    var a, b := base + Counted(log, i), base + Counted(log, j);
    assert a < b < a + RANGE;
    assert a % RANGE != b % RANGE;
  }

  /** The window is as wide as it can be: exactly 20000 counted attempts later the same port comes up. */
  lemma FarPortsRepeat(ports: seq<nat>, base: nat, log: seq<Attempt>, i: nat, j: nat)
    requires |ports| == RANGE && LogOk(ports, base, log) && i < j < |log| && log[i].port.Some? && log[j].port.Some?
    requires Counted(log, j) == Counted(log, i) + RANGE
    ensures log[i].port == log[j].port
  {
    assert AttemptOk(ports, base, log, i) && AttemptOk(ports, base, log, j);
  }

  // ---------- all processes ----------

  /** Where a process is; from `Locked` to `Leaving` it owns the lock file. */
  datatype Stage =
    | Outside(tries: nat)
    | Locked
    | Counting(counter: nat)
    | Chosen(bound: Bound)
    | Truncated(bound: Bound)
    | Leaving(result: Option<nat>)       // counter written, or panicked without a port
    | Done(result: Option<nat>)

  predicate Critical(s: Stage) { !s.Outside? && !s.Done? }

  /** The port a process is about to return or has returned. */
  function PortOf(s: Stage): Option<nat> {
    match s
    case Chosen(b) => Some(b.port)
    case Truncated(b) => Some(b.port)
    case Leaving(r) => r
    case Done(r) => r
    case _ => None
  }

  ghost predicate InLog(log: seq<Attempt>, p: nat, port: nat) {
    exists i :: 0 <= i < |log| && log[i].owner == p && log[i].port == Some(port)
  }

  /** The lock file exists exactly while one process is in its critical section. */
  ghost predicate Exclusive(lock: Option<nat>, stages: seq<Stage>) {
    && (lock.Some? ==> lock.value < |stages| && Critical(stages[lock.value]))
    && forall p :: 0 <= p < |stages| && Critical(stages[p]) ==> lock == Some(p)
  }

  /** The counter a process works with, whatever the file holds. */
  function Effective(file: Option<nat>): nat { if file.Some? && file.value < RANGE then file.value else 0 }

  /** What the counter file holds, given how far its owner has got. */
  predicate FileOk(file: Option<nat>, next: nat, owner: Option<Stage>) {
    match owner
    case Some(Chosen(b)) => b.counter == next % RANGE
    case Some(Truncated(b)) => b.counter == next % RANGE
    case Some(Counting(c)) => c == next % RANGE && Effective(file) == next % RANGE
    case _ => Effective(file) == next % RANGE
  }

  lemma FirstFreeIs(free: nat -> bool, n: nat, k: nat)
    requires k <= n && (k < n ==> free(k)) && forall j :: 0 <= j < k ==> !free(j)
    ensures FirstFree(free, n) == k
  {
  }

  /** What becomes of a process whose attempt `k` from counter `c` is the first to find a free port. */
  function BoundStage(ports: seq<nat>, c: nat, k: nat): Stage
    requires |ports| == RANGE
  {
    if k < MAX_PORT_RETRIES then Chosen(Bound(ports[(c + k) % RANGE], (c + k + 1) % RANGE)) else Leaving(None)
  }

  function BoundLog(ports: seq<nat>, log: seq<Attempt>, p: nat, c: nat, k: nat): seq<Attempt>
    requires |ports| == RANGE
  {
    if k < MAX_PORT_RETRIES then WithSuccess(log, p, c, k + 1, ports[(c + k) % RANGE])
    else AppendTried(log, p, c, k, false)
  }

  /** Turned away once more. */
  function Turned(tries: nat): Stage { if tries + 1 == MAX_LOCK_RETRIES then Done(None) else Outside(tries + 1) }

  class Allocator {
    const ports: seq<nat>
    ghost const initial: Option<nat>     // what the counter file held at first, in range or not
    var lock: Option<nat>
    var file: Option<nat>           // None: empty or unreadable
    var stages: seq<Stage>
    var log: seq<Attempt>

    constructor (ports: seq<nat>, n: nat, initial: Option<nat>)
      requires |ports| == RANGE
      ensures Inv() && this.ports == ports && this.initial == initial && View() == Initial(n, initial)
    {
      this.ports, this.initial := ports, initial;
      lock, file, log := None, initial, [];
      stages := seq(n, _ => Outside(0));
    }

    function View(): Snapshot
      reads this
    {
      Snapshot(lock, file, stages, log)
    }

    function Owner(): Option<Stage>
      requires lock.Some? ==> lock.value < |stages|
      reads this
    {
      if lock.Some? then Some(stages[lock.value]) else None
    }

    ghost predicate Inv()
      reads this
    {
      && |ports| == RANGE && LogOk(ports, Effective(initial), log)
      && Exclusive(lock, stages) && FileOk(file, Effective(initial) + Total(log), Owner())
      && (file == initial || file.None? || file.value < RANGE)
      && forall p :: 0 <= p < |stages| && PortOf(stages[p]).Some? ==> InLog(log, p, PortOf(stages[p]).value)
    }

    /** `create_new` succeeds only if the lock file does not exist; after a hundred tries the process panics. */
    method TryLock(p: nat)
      requires Inv() && p < |stages| && stages[p].Outside?
      modifies this`lock, this`stages
      ensures Inv() && lock == (if old(lock).None? then Some(p) else old(lock))
      ensures stages == old(stages)[p := if old(lock).None? then Locked else Turned(old(stages)[p].tries)]
      ensures old(lock).Some? ==>
        if old(stages)[p].tries == 99 then stages[p] == Done(None) else stages[p] == Outside(old(stages)[p].tries + 1)
    {
      if lock.None? {
        lock, stages := Some(p), stages[p := Locked];
      } else {
        var tries := stages[p].tries + 1;
        stages := stages[p := if tries == MAX_LOCK_RETRIES then Done(None) else Outside(tries)];
      }
    }

    method ReadCounter(p: nat)
      requires Inv() && p < |stages| && stages[p].Locked?
      modifies this`stages
      ensures Inv() && stages == old(stages)[p := Counting(Effective(file))] && Effective(file) < RANGE
    {
      var counter := if file.None? || file.value >= |ports| then 0 else file.value;
      stages := stages[p := Counting(counter)];
    }

    method Bind(p: nat, free: nat -> bool)
      requires Inv() && p < |stages| && stages[p].Counting?
      modifies this`stages, this`log
      ensures Inv() && old(stages)[p].counter < RANGE
      ensures var c, k := old(stages)[p].counter, FirstFree(free, MAX_PORT_RETRIES);
        && stages == old(stages)[p := BoundStage(ports, c, k)] && log == BoundLog(ports, old(log), p, c, k)
    {
      var start := stages[p].counter;
      var r, tried := BindPortFromCounter(ports, start, free);
      FirstFreeIs(free, MAX_PORT_RETRIES, if r.Some? then tried - 1 else tried);
      if r.Some? {
        RecordSuccess(p, start, tried, r.value);
      } else {
        RecordFailure(p, start, tried);
      }
    }

    method RecordSuccess(p: nat, start: nat, tried: nat, b: Bound)
      requires Inv() && p < |stages| && stages[p] == Counting(start) && tried >= 1
      requires b == Bound(ports[(start + tried - 1) % RANGE], (start + tried) % RANGE)
      modifies this`stages, this`log
      ensures Inv() && log == WithSuccess(old(log), p, start, tried, b.port) && stages == old(stages)[p := Chosen(b)]
    {
      ghost var before := log;
      SuccessOk(ports, Effective(initial), log, p, start, tried, b);
      log := WithSuccess(log, p, start, tried, b.port);
      stages := stages[p := Chosen(b)];
      InLogStays(before, log, stages, p);
    }

    method RecordFailure(p: nat, start: nat, tried: nat)
      requires Inv() && p < |stages| && stages[p] == Counting(start)
      modifies this`stages, this`log
      ensures Inv() && log == AppendTried(old(log), p, start, tried, false) && stages == old(stages)[p := Leaving(None)]
    {
      ghost var before := log;
      TriedOk(ports, Effective(initial), log, p, start, tried, false);
      log := AppendTried(log, p, start, tried, false);
      stages := stages[p := Leaving(None)];
      InLogStays(before, log, stages, p);
    }

    method Truncate(p: nat)
      requires Inv() && p < |stages| && stages[p].Chosen?
      modifies this`stages, this`file
      ensures Inv() && stages == old(stages)[p := Truncated(old(stages)[p].bound)] && file == None
    {
      file, stages := None, stages[p := Truncated(stages[p].bound)];
    }

    method WriteCounter(p: nat)
      requires Inv() && p < |stages| && stages[p].Truncated?
      modifies this`stages, this`file
      ensures Inv() && stages == old(stages)[p := Leaving(Some(old(stages)[p].bound.port))]
      ensures file == Some(old(stages)[p].bound.counter)
    {
      file, stages := Some(stages[p].bound.counter), stages[p := Leaving(Some(stages[p].bound.port))];
    }

    /** Dropping the files removes the lock, also while unwinding from a panic. */
    method Unlock(p: nat)
      requires Inv() && p < |stages| && stages[p].Leaving?
      modifies this`stages, this`lock
      ensures Inv() && lock == None && stages == old(stages)[p := Done(old(stages)[p].result)]
    {
      lock, stages := None, stages[p := Done(stages[p].result)];
    }
  }

  lemma InLogStays(a: seq<Attempt>, b: seq<Attempt>, stages: seq<Stage>, p: nat)
    requires a <= b
    requires forall q :: 0 <= q < |stages| && q != p && PortOf(stages[q]).Some? ==> InLog(a, q, PortOf(stages[q]).value)
    ensures forall q :: 0 <= q < |stages| && q != p && PortOf(stages[q]).Some? ==> InLog(b, q, PortOf(stages[q]).value)
  {
  }

  // ---------- runs ----------

  datatype Step = Step(process: nat, free: nat -> bool)

  datatype Snapshot = Snapshot(lock: Option<nat>, file: Option<nat>, stages: seq<Stage>, log: seq<Attempt>)

  /** What a step of a process comes to. */
  function Next(ports: seq<nat>, s: Snapshot, step: Step): Snapshot
    requires |ports| == RANGE
  {
    var p := step.process;
    if p >= |s.stages| then s
    else
      match s.stages[p]
      case Outside(tries) =>
        if s.lock.None? then s.(lock := Some(p), stages := s.stages[p := Locked])
        else s.(stages := s.stages[p := Turned(tries)])
      case Locked => s.(stages := s.stages[p := Counting(Effective(s.file))])
      case Counting(c) =>
        var k := FirstFree(step.free, MAX_PORT_RETRIES);
        s.(stages := s.stages[p := BoundStage(ports, c, k)], log := BoundLog(ports, s.log, p, c, k))
      case Chosen(b) => s.(file := None, stages := s.stages[p := Truncated(b)])
      case Truncated(b) => s.(file := Some(b.counter), stages := s.stages[p := Leaving(Some(b.port))])
      case Leaving(r) => s.(lock := None, stages := s.stages[p := Done(r)])
      case Done(_) => s
  }

  function After(ports: seq<nat>, start: Snapshot, steps: seq<Step>, n: nat): Snapshot
    requires |ports| == RANGE && n <= |steps|
  {
    if n == 0 then start else Next(ports, After(ports, start, steps, n - 1), steps[n - 1])
  }

  function Initial(n: nat, file: Option<nat>): Snapshot { Snapshot(None, file, seq(n, _ => Outside(0)), []) }

  /** At most one process is inside, and then the lock file is its own; whatever is written to the
      counter file is in range; every port returned is in the log; and fewer than 20000 attempts apart
      no port occurs twice. */
  ghost predicate Safe(ports: seq<nat>, initial: Option<nat>, s: Snapshot) {
    && Exclusive(s.lock, s.stages) && (s.file == initial || s.file.None? || s.file.value < |ports|)
    && (forall p :: 0 <= p < |s.stages| && PortOf(s.stages[p]).Some? ==> InLog(s.log, p, PortOf(s.stages[p]).value))
    && (forall i, j | 0 <= i < j < |s.log| && j - i < RANGE ::
          s.log[i].port.Some? && s.log[j].port.Some? ==> s.log[i].port != s.log[j].port)
    && (forall i :: 0 <= i < |s.log| && s.log[i].port.Some? ==> s.log[i].port.value in ports)
  }

  lemma InvIsSafe(a: Allocator)
    requires a.Inv() && PortVector(a.ports)
    ensures Safe(a.ports, a.initial, a.View())
  {
    var log, base := a.log, Effective(a.initial);
    forall i, j | 0 <= i < j < |log| && j - i < RANGE && log[i].port.Some? && log[j].port.Some?
      ensures log[i].port != log[j].port
    {
      NearbyPortsDiffer(a.ports, base, log, i, j);
    }
    forall i | 0 <= i < |log| && log[i].port.Some? ensures log[i].port.value in a.ports {
      assert AttemptOk(a.ports, base, log, i);
    }
  }

  /** Any number of processes, any interleaving of their steps, whatever the counter file held before. */
  method Run(ports: seq<nat>, n: nat, initial: Option<nat>, steps: seq<Step>) returns (s: Snapshot)
    requires PortVector(ports)
    ensures s == After(ports, Initial(n, initial), steps, |steps|)
    ensures Safe(ports, initial, s)
  {
    var a := new Allocator(ports, n, initial);
    for k := 0 to |steps|
      invariant a.Inv() && a.ports == ports && a.initial == initial
      invariant a.View() == After(ports, Initial(n, initial), steps, k)
    {
      if steps[k].process < |a.stages| { Do(a, steps[k]); }
    }
    s := a.View();
    InvIsSafe(a);
  }

  method Do(a: Allocator, s: Step)
    requires a.Inv() && s.process < |a.stages|
    modifies a
    ensures a.Inv() && a.View() == Next(a.ports, old(a.View()), s)
  {
    match a.stages[s.process] {
      case Outside(_) => a.TryLock(s.process);
      case Locked => a.ReadCounter(s.process);
      case Counting(_) => a.Bind(s.process, s.free);
      case Chosen(_) => a.Truncate(s.process);
      case Truncated(_) => a.WriteCounter(s.process);
      case Leaving(_) => a.Unlock(s.process);
      case Done(_) =>
    }
  }
}
