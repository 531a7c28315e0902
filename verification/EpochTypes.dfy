/** Messages, events, processors and verification tasks of one consensus node. */
module EpochTypes {
  import opened Wrappers

  /** An epoch number and the verifier of that epoch's validator set. */
  datatype EpochState = EpochState(epoch: nat, verifier: nat)

  /** Direct-send messages that carry an epoch. */
  datatype Kind =
    | Proposal | OptProposal | Vote | RoundTimeout | OrderVote | SyncInfo
    | CommitVote | CommitDecision
    | Batch | BatchRequest | SignedBatch | ProofOfStore

  datatype Queue = Consensus | QuorumStore | Rpc | Nowhere

  /** Where the network task puts a direct-send message. */
  function RouteOf(kind: Kind): Queue {
    match kind
    case Proposal | OptProposal | Vote | RoundTimeout | OrderVote | SyncInfo => Consensus
    case Batch | SignedBatch | ProofOfStore => QuorumStore
    case CommitVote | CommitDecision => Rpc
    case BatchRequest => Nowhere
  }

  /** Kinds the conversion to an unverified event accepts; any other panics. */
  predicate Convertible(kind: Kind) {
    !kind.CommitVote? && !kind.CommitDecision? && !kind.BatchRequest?
  }

  predicate QuorumStoreKind(kind: Kind) { kind.Batch? || kind.SignedBatch? || kind.ProofOfStore? }

  predicate ProposalKind(kind: Kind) { kind.Proposal? || kind.OptProposal? }

  /** What the consensus message queues deliver to the epoch manager.  A batch message without any
      batch has no epoch; `own` messages were sent by this node to itself. */
  datatype Message =
    | Event(kind: Kind, epoch: Option<nat>, own: bool)
    | EpochProof(epoch: Option<nat>, valid: bool)
    | EpochRetrieval(start: nat, end: nat)

  datatype RpcRequest =
    | BlockRetrieval
    | BatchRetrieval(epoch: nat)
    | DagRequest(epoch: nat)
    | RandGen(epoch: nat)
    | Commit(maybeEpoch: Option<nat>)
  {
    function Epoch(): Option<nat> {
      match this
      case BlockRetrieval => None
      case Commit(e) => e
      case BatchRetrieval(e) => Some(e)
      case DagRequest(e) => Some(e)
      case RandGen(e) => Some(e)
    }
  }

  /** What a processor receives; `checker` is the verifier the check was made with, if there was one. */
  datatype Verified =
    | Arrived(kind: Kind, epoch: nat, own: bool, checker: Option<nat>)
    | Delayed(epoch: nat, own: bool, checker: Option<nat>)  // a proposal the round manager resends to itself
    | LocalTimeout

  /** Sync infos are checked only when they are used, and a node's own messages never. */
  predicate PassedOn(kind: Kind, own: bool) { own || kind.SyncInfo? }

  function CheckerOf(kind: Kind, own: bool, verifier: nat): Option<nat> {
    if PassedOn(kind, own) then None else Some(verifier)
  }

  /** A check that succeeded: of a message of this kind, with the verifier of this epoch state. */
  datatype Pass = Pass(kind: Kind, es: EpochState)

  /** The event is of the epoch and, unless it is the node's own or a sync info, was checked with the
      epoch's own verifier, and the check succeeded; a local timeout carries neither. */
  predicate Pure(e: Verified, es: EpochState, passed: set<Pass>) {
    match e
    case Arrived(kind, epoch, own, checker) =>
      && epoch == es.epoch
      && (if own || kind.SyncInfo? then checker == None else checker == Some(es.verifier) && Pass(kind, es) in passed)
    case Delayed(epoch, own, checker) =>
      && epoch == es.epoch
      && (if own then checker == None
          else checker == Some(es.verifier) && (Pass(Proposal, es) in passed || Pass(OptProposal, es) in passed))
    case LocalTimeout => true
  }

  /** What the event loop of a round manager has a case for on its main queue. */
  predicate RoundEvent(e: Verified) {
    || e.LocalTimeout?
    || (e.Arrived? && (e.kind.Vote? || e.kind.RoundTimeout? || e.kind.OrderVote? || e.kind.SyncInfo?))
  }

  /** A recovery manager acts on votes and sync infos; it turns the rest away with an error. */
  predicate RecoveryEvent(e: Verified) { e.Arrived? && (e.kind.Vote? || e.kind.SyncInfo?) }

  /** Does the event loop of such a processor have a case for the event? */
  predicate HasCase(kind: ProcKind, e: Verified) {
    match kind
    case RoundManager => RoundEvent(e)
    case RecoveryManager => RecoveryEvent(e)
    case DagBootstrapper => false
  }

  /** What a round manager has a case for on its proposal queue. */
  predicate ProposalEvent(e: Verified) {
    e.Delayed? || (e.Arrived? && ProposalKind(e.kind))
  }

  datatype ProcKind = RoundManager | RecoveryManager | DagBootstrapper

  /** A processor runs until it acks a close request; its receivers disappear some time later. */
  datatype Life = Running | Acked | Gone

  datatype Proc = Proc(
    kind: ProcKind,
    es: EpochState,
    life: Life,
    closing: bool,                 // a close request is waiting
    events: seq<Verified>,
    proposals: seq<Verified>,
    rpcs: seq<nat>,                // epochs of queued DAG requests
    handled: seq<Verified>,
    handledRpcs: seq<nat>)

  /** A spawned verification: it owns copies of the epoch state and of both senders. */
  datatype Task = Task(es: EpochState, kind: Kind, epoch: nat, own: bool, roundTx: Option<nat>, bufferedTx: Option<nat>)

  /** What a task forwards, if its check succeeds or there is none. */
  function EventOf(t: Task): Verified { Arrived(t.kind, t.epoch, t.own, CheckerOf(t.kind, t.own, t.es.verifier)) }

  predicate Succeeds(t: Task, ok: bool) { ok || PassedOn(t.kind, t.own) }

  // ---------- what holds of every processor and task ----------

  ghost predicate AllPure(s: seq<Verified>, es: EpochState, passed: set<Pass>) {
    forall e :: e in s ==> Pure(e, es, passed)
  }

  ghost predicate ProcOk(p: Proc, passed: set<Pass>) {
    && AllPure(p.handled, p.es, passed) && AllPure(p.events, p.es, passed)
    && (p.life.Running? ==> AllPure(p.proposals, p.es, passed))
    && (forall e :: e in p.events ==> RoundEvent(e))
    && (forall e :: e in p.proposals ==> ProposalEvent(e))
    && (forall e :: e in p.handled ==> RoundEvent(e) || ProposalEvent(e))
    && (p.life.Running? ==> forall r :: r in p.rpcs ==> r == p.es.epoch)
    && (forall r :: r in p.handledRpcs ==> r == p.es.epoch)
    && (p.kind.RecoveryManager? ==> forall e :: e in p.handled ==> RecoveryEvent(e))
    && (!p.kind.RoundManager? ==> p.proposals == [])
    && (p.kind.DagBootstrapper? ==> p.events == [] && p.handled == [])
    && (!p.kind.DagBootstrapper? ==> p.rpcs == [] && p.handledRpcs == [])
  }

  /** A sender that survives a shutdown leads to a receiver nobody reads any more. */
  predicate StaleOk(tx: Option<nat>, kind: ProcKind, es: EpochState, procs: seq<Proc>) {
    tx.Some? ==>
      && tx.value < |procs| && procs[tx.value].kind == kind
      && (procs[tx.value].life.Running? ==> procs[tx.value].es == es)
  }

  predicate TaskOk(t: Task, procs: seq<Proc>) {
    && Convertible(t.kind) && t.epoch == t.es.epoch
    && (t.roundTx.Some? ==>
        && t.roundTx.value < |procs| && procs[t.roundTx.value].es == t.es
        && !procs[t.roundTx.value].kind.DagBootstrapper?)
    && StaleOk(t.bufferedTx, RoundManager, t.es, procs)
  }

  ghost predicate ProcAt(procs: seq<Proc>, i: nat, passed: set<Pass>)
    requires i < |procs|
  {
    ProcOk(procs[i], passed)
  }

  ghost predicate AllOk(procs: seq<Proc>, tasks: seq<Task>, passed: set<Pass>) {
    && (forall i :: 0 <= i < |procs| ==> ProcAt(procs, i, passed))
    && (forall t :: t in tasks ==> TaskOk(t, procs))
  }

  /** Only the newest processor can be running. */
  ghost predicate OnlyLastRuns(procs: seq<Proc>) {
    forall i :: 0 <= i < |procs| - 1 ==> !procs[i].life.Running?
  }

  /** `q` is a later state of the processor `p`: nothing it handled is forgotten, and it handles
      nothing any more once it has acked. */
  predicate Evolves(p: Proc, q: Proc) {
    && p.kind == q.kind && p.es == q.es && (q.life.Running? ==> p.life.Running?)
    && p.handled <= q.handled && p.handledRpcs <= q.handledRpcs
    && (!p.life.Running? ==> q.handled == p.handled && q.handledRpcs == p.handledRpcs)
  }

  /** One step of the whole node, seen from its processors: a new one appears only when none runs. */
  ghost predicate SafeStep(a: seq<Proc>, b: seq<Proc>) {
    && |a| <= |b| <= |a| + 1
    && (forall i :: 0 <= i < |a| ==> Evolves(a[i], b[i]))
    && (|a| < |b| ==> forall i :: 0 <= i < |a| ==> !a[i].life.Running?)
  }

  // ---------- what a processor does ----------

  function Without<T>(s: seq<T>, k: nat): (r: seq<T>)
    requires k < |s|
    ensures |r| == |s| - 1 && (forall j :: 0 <= j < k ==> r[j] == s[j]) && forall j :: k <= j < |r| ==> r[j] == s[j + 1]
    ensures forall x :: x in r ==> x in s
  {
    s[..k] + s[k + 1..]
  }

  function TakeEvent(p: Proc, k: nat): (q: Proc)
    requires k < |p.events|
  {
    var e := p.events[k];
    p.(events := Without(p.events, k), handled := if HasCase(p.kind, e) then p.handled + [e] else p.handled)
  }

  function TakeProposal(p: Proc, k: nat): (q: Proc)
    requires k < |p.proposals|
  {
    p.(proposals := Without(p.proposals, k), handled := p.handled + [p.proposals[k]])
  }

  function Lost(p: Proc, k: nat, proposal: bool): (q: Proc)
    requires k < |if proposal then p.proposals else p.events|
  {
    if proposal then p.(proposals := Without(p.proposals, k)) else p.(events := Without(p.events, k))
  }

  /** A proposal on its second way to the round manager. */
  function Again(e: Verified): Verified
    requires ProposalEvent(e)
  {
    Delayed(e.epoch, e.own, e.checker)
  }

  function TakeRpc(p: Proc, k: nat): (q: Proc)
    requires k < |p.rpcs|
  {
    p.(rpcs := Without(p.rpcs, k), handledRpcs := p.handledRpcs + [p.rpcs[k]])
  }

  /** A send succeeds until the receiver is dropped. */
  predicate Open(procs: seq<Proc>, i: nat) { i < |procs| && !procs[i].life.Gone? }

  function PushedEvent(procs: seq<Proc>, i: nat, e: Verified): seq<Proc> {
    if Open(procs, i) then procs[i := procs[i].(events := procs[i].events + [e])] else procs
  }

  function PushedProposal(procs: seq<Proc>, i: nat, e: Verified): seq<Proc> {
    if Open(procs, i) then procs[i := procs[i].(proposals := procs[i].proposals + [e])] else procs
  }

  function PushedRpc(procs: seq<Proc>, i: nat, epoch: nat): seq<Proc> {
    if Open(procs, i) then procs[i := procs[i].(rpcs := procs[i].rpcs + [epoch])] else procs
  }

  /** Where an event goes: through the senders the task was given when it was spawned. */
  function Forwarded(procs: seq<Proc>, t: Task): seq<Proc> {
    if QuorumStoreKind(t.kind) then procs
    else if ProposalKind(t.kind) then
      if t.bufferedTx.Some? then PushedProposal(procs, t.bufferedTx.value, EventOf(t)) else procs
    else
      if t.roundTx.Some? then PushedEvent(procs, t.roundTx.value, EventOf(t)) else procs
  }

  lemma TakeEventOk(p: Proc, k: nat, passed: set<Pass>)
    requires ProcOk(p, passed) && p.life.Running? && k < |p.events|
    ensures ProcOk(TakeEvent(p, k), passed) && Evolves(p, TakeEvent(p, k)) && Pure(p.events[k], p.es, passed)
    ensures RoundEvent(p.events[k])
  {
    var e := p.events[k];
    assert Pure(e, p.es, passed) && RoundEvent(e) && !ProposalEvent(e);
  }

  lemma TakeProposalOk(p: Proc, k: nat, passed: set<Pass>)
    requires ProcOk(p, passed) && p.life.Running? && k < |p.proposals|
    ensures ProcOk(TakeProposal(p, k), passed) && Evolves(p, TakeProposal(p, k)) && Pure(p.proposals[k], p.es, passed)
    ensures ProposalEvent(p.proposals[k])
  {
  }

  lemma TakeRpcOk(p: Proc, k: nat, passed: set<Pass>)
    requires ProcOk(p, passed) && p.life.Running? && k < |p.rpcs|
    ensures ProcOk(TakeRpc(p, k), passed) && Evolves(p, TakeRpc(p, k)) && p.rpcs[k] == p.es.epoch
  {
    assert p.rpcs[k] in p.rpcs;
  }

  lemma EvolveKeeps(procs: seq<Proc>, tasks: seq<Task>, passed: set<Pass>, i: nat, q: Proc)
    requires AllOk(procs, tasks, passed) && OnlyLastRuns(procs) && i < |procs| && Evolves(procs[i], q)
    requires ProcOk(q, passed)
    ensures AllOk(procs[i := q], tasks, passed) && OnlyLastRuns(procs[i := q]) && SafeStep(procs, procs[i := q])
  {
    var procs' := procs[i := q];
    forall j | 0 <= j < |procs'| ensures ProcAt(procs', j, passed) { assert ProcAt(procs, j, passed); }
    forall t | t in tasks ensures TaskOk(t, procs') { assert TaskOk(t, procs); }
  }

  lemma SpawnKeeps(procs: seq<Proc>, tasks: seq<Task>, passed: set<Pass>, q: Proc)
    requires AllOk(procs, tasks, passed) && ProcOk(q, passed)
    requires forall i :: 0 <= i < |procs| ==> !procs[i].life.Running?
    ensures AllOk(procs + [q], tasks, passed) && OnlyLastRuns(procs + [q]) && SafeStep(procs, procs + [q])
  {
    var procs' := procs + [q];
    forall j | 0 <= j < |procs'|
      ensures ProcAt(procs', j, passed)
    {
      if j < |procs| { assert ProcAt(procs, j, passed); }
    }
    forall t | t in tasks ensures TaskOk(t, procs') { assert TaskOk(t, procs); }
  }

  lemma RemoveTaskKeeps(procs: seq<Proc>, tasks: seq<Task>, passed: set<Pass>, k: nat)
    requires AllOk(procs, tasks, passed) && k < |tasks|
    ensures AllOk(procs, Without(tasks, k), passed)
  {
  }

  /** More checks that succeeded take nothing away. */
  lemma MorePassed(procs: seq<Proc>, tasks: seq<Task>, a: set<Pass>, b: set<Pass>)
    requires AllOk(procs, tasks, a) && a <= b
    ensures AllOk(procs, tasks, b)
  {
    forall i | 0 <= i < |procs| ensures ProcAt(procs, i, b) { assert ProcAt(procs, i, a); }
  }
}
