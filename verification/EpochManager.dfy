/** The epoch manager of one node together with the processors and verification tasks it has spawned.
    Every method is one atomic step; the `await` points of the original split an operation in several. */
module EpochManager {
  import opened Wrappers
  import opened EpochTypes

  /** Where the manager is suspended. */
  datatype Phase = Idle | AwaitRoundAck | AwaitDagAck | AwaitReconfig

  /** What the manager sends back to a peer. */
  datatype Reply =
    | SendProof(start: nat, end: nat)
    | SendRequest(start: nat, end: nat)

  /** Which processor the on-chain configuration and the recovered storage ask for. */
  datatype Start = StartRound | StartRecovery | StartDag

  function ProcFor(start: Start): ProcKind {
    match start case StartRound => RoundManager case StartRecovery => RecoveryManager case StartDag => DagBootstrapper
  }

  /** The answer to a message of another epoch; `Err` is the branch that claims the epochs are equal. */
  function DifferentEpoch(mine: nat, other: nat, inValidatorSet: bool): Result<Option<Reply>, ()> {
    if other < mine then Ok(if inValidatorSet then None else Some(SendProof(other, mine)))
    else if other > mine then Ok(Some(SendRequest(mine, other)))
    else Err(())
  }

  /** A node of a later epoch is asked for the epochs in between; one of an earlier epoch is sent them,
      unless this node is a validator, which leaves that to others. */
  function Answer(es: EpochState, other: nat, inSet: nat -> bool): Option<Reply>
    requires other != es.epoch
  {
    if other > es.epoch then Some(SendRequest(es.epoch, other))
    else if inSet(es.verifier) then None
    else Some(SendProof(other, es.epoch))
  }

  /** Everything the manager, its processors and its tasks are made of. */
  datatype State = State(
    es: Option<EpochState>,
    roundTx: Option<nat>,
    bufferedTx: Option<nat>,
    dagRpcTx: Option<nat>,
    roundClose: Option<nat>,
    dagClose: Option<nat>,
    recoveryMode: bool,
    quorumStore: bool,
    phase: Phase,
    procs: seq<Proc>,
    tasks: seq<Task>,
    passed: set<Pass>)

  function Created(): State { State(None, None, None, None, None, None, false, false, AwaitReconfig, [], [], {}) }

  /** The newest processor is asked to close, and both close handles are used up. */
  function Closing(st: State): State
    requires st.procs != []
  {
    var last := |st.procs| - 1;
    st.(procs := st.procs[last := st.procs[last].(closing := true)],
        phase := if st.procs[last].kind.DagBootstrapper? then AwaitDagAck else AwaitRoundAck,
        roundClose := None, dagClose := None)
  }

  /** The filters an event passes before it is verified. */
  predicate Admitted(st: State, m: Message, optProposals: bool)
    requires st.es.Some?
  {
    && m.Event? && m.epoch == Some(st.es.value.epoch)
    && (m.kind.OptProposal? ==> optProposals) && (QuorumStoreKind(m.kind) ==> st.quorumStore)
  }

  /** What a message off the consensus queues does: an admitted event becomes a task, a valid proof of
      the current epoch starts the shutdown, and nothing else changes anything. */
  function OnMessage(st: State, m: Message, optProposals: bool): State
    requires st.es.Some? && st.procs != []
  {
    if Admitted(st, m, optProposals) then
      st.(tasks := st.tasks + [Task(st.es.value, m.kind, m.epoch.value, m.own, st.roundTx, st.bufferedTx)])
    else if m.EpochProof? && m.valid && m.epoch == Some(st.es.value.epoch) then Closing(st)
    else st
  }

  function OnRpc(st: State, r: RpcRequest): State
    requires st.es.Some?
  {
    if r.DagRequest? && r.epoch == st.es.value.epoch && st.dagRpcTx.Some?
    then st.(procs := PushedRpc(st.procs, st.dagRpcTx.value, r.epoch))
    else st
  }

  function NewProc(kind: ProcKind, es: EpochState): Proc { Proc(kind, es, Running, false, [], [], [], [], []) }

  /** The new epoch state, one new processor, and the senders and handle that lead to it; senders of an
      earlier processor of another kind stay. */
  function Started(st: State, es: EpochState, start: Start, qs: bool): State {
    var id := Some(|st.procs|);
    var next := st.(es := Some(es), phase := Idle, quorumStore := qs,
      procs := st.procs + [NewProc(ProcFor(start), es)]);
    match start
    case StartRound => next.(recoveryMode := false, roundTx := id, bufferedTx := id, roundClose := id)
    case StartRecovery => next.(recoveryMode := true, roundTx := id, roundClose := id)
    case StartDag => next.(dagRpcTx := id, dagClose := id)
  }

  ghost predicate PhaseOk(phase: Phase, es: Option<EpochState>, roundTx: Option<nat>, roundClose: Option<nat>,
      dagClose: Option<nat>, procs: seq<Proc>) {
    var last := |procs| - 1;
    match phase
    case Idle =>
      && procs != [] && procs[last].life.Running? && !procs[last].closing && es == Some(procs[last].es)
      && (if procs[last].kind.DagBootstrapper?
          then roundTx == None && roundClose == None && dagClose == Some(last)
          else roundTx == Some(last) && roundClose == Some(last) && dagClose == None)
    case AwaitRoundAck =>
      && procs != [] && procs[last].closing && es == Some(procs[last].es) && !procs[last].kind.DagBootstrapper?
      && roundTx == Some(last) && roundClose == None && dagClose == None
    case AwaitDagAck =>
      && procs != [] && procs[last].closing && es == Some(procs[last].es) && procs[last].kind.DagBootstrapper?
      && roundTx == None && roundClose == None && dagClose == None
    case AwaitReconfig =>
      && (forall i :: 0 <= i < |procs| ==> !procs[i].life.Running?)
      && roundTx == None && roundClose == None && dagClose == None
  }

  lemma PhaseSurvives(phase: Phase, es: Option<EpochState>, roundTx: Option<nat>, roundClose: Option<nat>,
      dagClose: Option<nat>, procs: seq<Proc>, i: nat, q: Proc)
    requires PhaseOk(phase, es, roundTx, roundClose, dagClose, procs) && i < |procs| && Evolves(procs[i], q)
    requires q.closing == procs[i].closing && (q.life.Running? || !procs[i].life.Running? || q.closing)
    ensures PhaseOk(phase, es, roundTx, roundClose, dagClose, procs[i := q])
  {
  }

  class Node {
    const inSet: nat -> bool             // is this node in the validator set behind a verifier?
    var epochState: Option<EpochState>
    var roundTx: Option<nat>             // senders and close handles name the processor at the other end
    var bufferedTx: Option<nat>
    var dagRpcTx: Option<nat>
    var roundClose: Option<nat>
    var dagClose: Option<nat>
    var recoveryMode: bool
    var quorumStore: bool
    var phase: Phase
    var procs: seq<Proc>                 // everything ever spawned, oldest first
    var tasks: seq<Task>
    var passed: set<Pass>                // every check that has succeeded, for the record

    constructor (inSet: nat -> bool)
      ensures Inv() && View() == Created()
    {
      this.inSet := inSet;
      epochState, roundTx, bufferedTx, dagRpcTx, roundClose, dagClose := None, None, None, None, None, None;
      recoveryMode, quorumStore, phase, procs, tasks, passed := false, false, AwaitReconfig, [], [], {};
    }

    ghost predicate Inv()
      reads this
    {
      && AllOk(procs, tasks, passed) && OnlyLastRuns(procs)
      && PhaseOk(phase, epochState, roundTx, roundClose, dagClose, procs)
      && (epochState.None? ==> bufferedTx == None && dagRpcTx == None)
      && (epochState.Some? ==>
          && StaleOk(bufferedTx, RoundManager, epochState.value, procs)
          && StaleOk(dagRpcTx, DagBootstrapper, epochState.value, procs))
      && (phase.Idle? && procs[|procs| - 1].kind.RoundManager? ==> bufferedTx == Some(|procs| - 1))
      && (phase.Idle? && procs[|procs| - 1].kind.DagBootstrapper? ==> dagRpcTx == Some(|procs| - 1))
    }

    function View(): State
      reads this
    {
      State(epochState, roundTx, bufferedTx, dagRpcTx, roundClose, dagClose,
        recoveryMode, quorumStore, phase, procs, tasks, passed)
    }

    /** A processor moves on; its place in the handshake does not change while it runs. */
    method Become(i: nat, q: Proc)
      requires Inv() && i < |procs| && Evolves(procs[i], q) && ProcOk(q, passed)
      requires q.closing == procs[i].closing && (q.life.Running? || !procs[i].life.Running? || q.closing)
      modifies this`procs
      ensures Inv() && procs == old(procs)[i := q] && SafeStep(old(procs), procs)
    {
      EvolveKeeps(procs, tasks, passed, i, q);
      PhaseSurvives(phase, epochState, roundTx, roundClose, dagClose, procs, i, q);
      procs := procs[i := q];
    }

    // ---------- messages ----------

    /** A message off one of the two consensus queues: an event of the current epoch is verified by a
        task that owns copies of the epoch state and of the senders. */
    method ProcessMessage(m: Message, optProposals: bool) returns (reply: Option<Reply>)
      requires Inv() && phase.Idle?
      requires m.Event? ==> RouteOf(m.kind).Consensus? || RouteOf(m.kind).QuorumStore?
      modifies this
      ensures Inv() && SafeStep(old(procs), procs) && View() == OnMessage(old(View()), m, optProposals)
      ensures m.Event? && m.epoch.Some? && (m.kind.OptProposal? ==> optProposals) ==>
        (m.epoch.value > epochState.value.epoch ==> reply == Some(SendRequest(epochState.value.epoch, m.epoch.value)))
      ensures m.EpochRetrieval? ==>
        reply == if m.end <= epochState.value.epoch then Some(SendProof(m.start, m.end)) else None
    {
      reply := None;
      if m.Event? && m.kind.OptProposal? && !optProposals { return; }
      var event;
      event, reply := CheckEpoch(m);
      if event && (!QuorumStoreKind(m.kind) || quorumStore) {
        var t := Task(epochState.value, m.kind, m.epoch.value, m.own, roundTx, bufferedTx);
        assert TaskOk(t, procs);
        tasks := tasks + [t];
      }
    }

    /** Is the message an event of the current epoch?  Anything else is dealt with here. */
    method CheckEpoch(m: Message) returns (event: bool, reply: Option<Reply>)
      requires Inv() && phase.Idle?
      modifies this`phase, this`procs, this`roundTx, this`roundClose, this`dagClose
      ensures Inv() && SafeStep(old(procs), procs)
      ensures event <==> m.Event? && m.epoch == Some(epochState.value.epoch)
      ensures m.Event? && m.epoch.Some? && m.epoch.value != epochState.value.epoch ==>
        && Ok(reply) == DifferentEpoch(epochState.value.epoch, m.epoch.value, inSet(epochState.value.verifier))
        && reply == Answer(epochState.value, m.epoch.value, inSet)
      ensures m.EpochRetrieval? ==>
        reply == if m.end <= epochState.value.epoch then Some(SendProof(m.start, m.end)) else None
      ensures View() ==
        if m.EpochProof? && m.valid && m.epoch == Some(epochState.value.epoch)
        then Closing(old(View())) else old(View())
    {
      event, reply := false, None;
      match m {
        case Event(_, epoch, _) =>
          if epoch == Some(epochState.value.epoch) {
            event := true;
          } else if epoch.Some? {
            reply := DifferentEpoch(epochState.value.epoch, epoch.value, inSet(epochState.value.verifier)).value;
          }
        case EpochProof(epoch, valid) =>
          if epoch == Some(epochState.value.epoch) && valid { BeginShutdown(); }
        case EpochRetrieval(start, end) =>
          if end <= epochState.value.epoch { reply := Some(SendProof(start, end)); }
      }
    }

    /** An RPC request: gated by epoch in the same way, then pushed to whoever serves it. */
    method ProcessRpcRequest(r: RpcRequest) returns (reply: Option<Reply>)
      requires Inv() && phase.Idle?
      modifies this`procs
      ensures Inv() && SafeStep(old(procs), procs)
      ensures r.Epoch().Some? && r.Epoch().value != epochState.value.epoch ==>
        && reply == Answer(epochState.value, r.Epoch().value, inSet)
        && procs == old(procs)
      ensures View() == OnRpc(old(View()), r)
      ensures r.Commit? && r.maybeEpoch.Some? && r.maybeEpoch.value != epochState.value.epoch ==>
        reply == Answer(epochState.value, r.maybeEpoch.value, inSet)
      ensures (r.BatchRetrieval? || r.DagRequest? || r.RandGen?) && r.epoch != epochState.value.epoch ==>
        reply == Answer(epochState.value, r.epoch, inSet)
      ensures r.BlockRetrieval? ==> reply == None
      ensures r.Epoch() == Some(epochState.value.epoch) && r.DagRequest? && procs[|procs| - 1].kind.DagBootstrapper? ==>
        procs[|procs| - 1].rpcs == old(procs)[|procs| - 1].rpcs + [r.epoch]
    {
      reply := None;
      if r.Epoch().Some? && r.Epoch().value != epochState.value.epoch {
        reply := DifferentEpoch(epochState.value.epoch, r.Epoch().value, inSet(epochState.value.verifier)).value;
      } else if r.DagRequest? && dagRpcTx.Some? {
        var i := dagRpcTx.value;
        assert ProcAt(procs, i, passed);
        var p := procs[i].(rpcs := procs[i].rpcs + [r.epoch]);
        if !p.life.Gone? {
          Become(i, p);
        }
      }
    }

    method ProcessLocalTimeout()
      requires Inv() && phase.Idle?
      modifies this`procs
      ensures Inv() && SafeStep(old(procs), procs)
      ensures procs == if roundTx.Some? then PushedEvent(old(procs), roundTx.value, LocalTimeout) else old(procs)
    {
      if roundTx.Some? { PushEvent(roundTx.value, LocalTimeout); }
    }

    /** A verification ends at any later time and, if it succeeded, forwards the event through the
        senders it owns, whatever the manager has done since; what needs no check cannot fail one. */
    method FinishTask(k: nat, ok: bool)
      requires Inv() && k < |tasks|
      modifies this`tasks, this`procs, this`passed
      ensures Inv() && SafeStep(old(procs), procs) && tasks == Without(old(tasks), k)
      ensures passed == old(passed) + if ok then {Pass(old(tasks)[k].kind, old(tasks)[k].es)} else {}
      ensures procs == if Succeeds(old(tasks)[k], ok) then Forwarded(old(procs), old(tasks)[k]) else old(procs)
      ensures !ok && !old(tasks)[k].own && !old(tasks)[k].kind.SyncInfo? ==> procs == old(procs)
    {
      var t := tasks[k];
      assert TaskOk(t, procs);
      RemoveTaskKeeps(procs, tasks, passed, k);
      tasks := Without(tasks, k);
      if ok {
        MorePassed(procs, tasks, passed, passed + {Pass(t.kind, t.es)});
        passed := passed + {Pass(t.kind, t.es)};
      }
      if Succeeds(t, ok) { ForwardEvent(t, EventOf(t)); }
    }

    method ForwardEvent(t: Task, e: Verified)
      requires Inv() && TaskOk(t, procs) && e == EventOf(t)
      requires t.own || t.kind.SyncInfo? || Pass(t.kind, t.es) in passed
      modifies this`procs
      ensures Inv() && SafeStep(old(procs), procs) && procs == Forwarded(old(procs), t)
    {
      if QuorumStoreKind(t.kind) {
        // to the quorum store, which is not a processor of this model
      } else if ProposalKind(t.kind) {
        if t.bufferedTx.Some? { PushProposal(t.bufferedTx.value, e); }
      } else {
        if t.roundTx.Some? { PushEvent(t.roundTx.value, e); }
      }
    }

    /** A send succeeds until the receiver is dropped. */
    method PushEvent(i: nat, e: Verified)
      requires Inv() && i < |procs| && !procs[i].kind.DagBootstrapper? && Pure(e, procs[i].es, passed) && RoundEvent(e)
      modifies this`procs
      ensures Inv() && SafeStep(old(procs), procs)
      ensures procs == PushedEvent(old(procs), i, e)
    {
      assert ProcAt(procs, i, passed);
      var p := procs[i].(events := procs[i].events + [e]);
      if !p.life.Gone? {
        Become(i, p);
      }
    }

    method PushProposal(i: nat, e: Verified)
      requires Inv() && i < |procs| && procs[i].kind.RoundManager? && ProposalEvent(e)
      requires procs[i].life.Running? ==> Pure(e, procs[i].es, passed)
      modifies this`procs
      ensures Inv() && SafeStep(old(procs), procs)
      ensures procs == PushedProposal(old(procs), i, e)
    {
      assert ProcAt(procs, i, passed);
      var p := procs[i].(proposals := procs[i].proposals + [e]);
      if !p.life.Gone? {
        Become(i, p);
      }
    }

    // ---------- shutdown and restart ----------

    /** First half of the shutdown: send the close request of whichever handle is held. */
    method BeginShutdown()
      requires Inv() && phase.Idle?
      modifies this`phase, this`procs, this`roundTx, this`roundClose, this`dagClose
      ensures Inv() && SafeStep(old(procs), procs) && View() == Closing(old(View()))
    {
      if roundClose.Some? {
        SendClose(roundClose.value);
        roundClose, phase := None, AwaitRoundAck;
      } else {
        roundTx := None;
        SendClose(dagClose.value);
        dagClose, phase := None, AwaitDagAck;
      }
    }

    /** The receiver of a held close handle is always alive, so the send cannot fail. */
    method SendClose(i: nat)
      requires AllOk(procs, tasks, passed) && OnlyLastRuns(procs)
      requires i == |procs| - 1 && procs[i].life.Running? && !procs[i].closing
      modifies this`procs
      ensures AllOk(procs, tasks, passed) && OnlyLastRuns(procs) && SafeStep(old(procs), procs)
      ensures procs == old(procs)[i := old(procs)[i].(closing := true)]
    {
      assert ProcAt(procs, i, passed);
      EvolveKeeps(procs, tasks, passed, i, procs[i].(closing := true));
      procs := procs[i := procs[i].(closing := true)];
    }

    /** Second half, once the ack has arrived: only now is the sender dropped. */
    method ReceiveAck()
      requires Inv() && (phase.AwaitRoundAck? || phase.AwaitDagAck?) && !procs[|procs| - 1].life.Running?
      modifies this`phase, this`roundTx
      ensures Inv() && phase.AwaitReconfig? && roundTx == None
    {
      roundTx, phase := None, AwaitReconfig;
    }

    /** The reconfiguration notification: a new epoch state and exactly one new processor. */
    method StartNewEpoch(es: EpochState, start: Start, qs: bool)
      requires Inv() && phase.AwaitReconfig?
      modifies this
      ensures Inv() && SafeStep(old(procs), procs) && View() == Started(old(View()), es, start, qs)
    {
      match start {
        case StartRound => StartRoundManager(es);
        case StartRecovery => StartRecoveryManager(es);
        case StartDag => StartDagBootstrapper(es);
      }
      quorumStore := qs;
    }

    method StartRoundManager(es: EpochState)
      requires Inv() && phase.AwaitReconfig?
      modifies this
      ensures Inv() && SafeStep(old(procs), procs) && procs == old(procs) + [NewProc(RoundManager, es)]
      ensures epochState == Some(es) && phase == Idle && quorumStore == old(quorumStore) && tasks == old(tasks)
      ensures passed == old(passed)
      ensures roundTx == bufferedTx == roundClose == Some(|old(procs)|) && dagClose == None
      ensures dagRpcTx == old(dagRpcTx) && recoveryMode == false
    {
      var id := |procs|;
      Spawn(RoundManager, es);
      epochState, recoveryMode, phase := Some(es), false, Idle;
      roundTx, bufferedTx, roundClose := Some(id), Some(id), Some(id);
    }

    /** Leaves the proposal sender of an earlier round manager in place. */
    method StartRecoveryManager(es: EpochState)
      requires Inv() && phase.AwaitReconfig?
      modifies this
      ensures Inv() && SafeStep(old(procs), procs) && procs == old(procs) + [NewProc(RecoveryManager, es)]
      ensures epochState == Some(es) && phase == Idle && quorumStore == old(quorumStore) && tasks == old(tasks)
      ensures passed == old(passed)
      ensures roundTx == roundClose == Some(|old(procs)|) && dagClose == None
      ensures bufferedTx == old(bufferedTx) && dagRpcTx == old(dagRpcTx) && recoveryMode == true
    {
      var id := |procs|;
      Spawn(RecoveryManager, es);
      epochState, recoveryMode, phase := Some(es), true, Idle;
      roundTx, roundClose := Some(id), Some(id);
    }

    /** Leaves the proposal sender and the recovery flag in place. */
    method StartDagBootstrapper(es: EpochState)
      requires Inv() && phase.AwaitReconfig?
      modifies this
      ensures Inv() && SafeStep(old(procs), procs) && procs == old(procs) + [NewProc(DagBootstrapper, es)]
      ensures epochState == Some(es) && phase == Idle && quorumStore == old(quorumStore) && tasks == old(tasks)
      ensures passed == old(passed)
      ensures dagRpcTx == dagClose == Some(|old(procs)|) && roundTx == None && roundClose == None
      ensures bufferedTx == old(bufferedTx) && recoveryMode == old(recoveryMode)
    {
      var id := |procs|;
      Spawn(DagBootstrapper, es);
      epochState, phase := Some(es), Idle;
      dagRpcTx, dagClose := Some(id), Some(id);
    }

    method Spawn(kind: ProcKind, es: EpochState)
      requires AllOk(procs, tasks, passed) && forall i :: 0 <= i < |procs| ==> !procs[i].life.Running?
      modifies this`procs
      ensures AllOk(procs, tasks, passed) && OnlyLastRuns(procs) && SafeStep(old(procs), procs)
      ensures procs == old(procs) + [NewProc(kind, es)]
    {
      SpawnKeeps(procs, tasks, passed, NewProc(kind, es));
      procs := procs + [NewProc(kind, es)];
    }

    // ---------- processors ----------

    /** A running processor takes an event off its main queue; a round manager always has a case for it,
        a recovery manager drops what it has none for. */
    method HandleEvent(i: nat, k: nat)
      requires Inv() && i < |procs| && procs[i].life.Running? && k < |procs[i].events|
      modifies this`procs
      ensures Inv() && SafeStep(old(procs), procs)
      ensures procs == old(procs)[i := TakeEvent(old(procs)[i], k)]
      ensures var p, e := old(procs)[i], old(procs)[i].events[k];
        && procs[i].events == Without(p.events, k) && procs[i].proposals == p.proposals
        && (p.kind.RoundManager? || (e.Arrived? && (e.kind.Vote? || e.kind.SyncInfo?)) ==>
            procs[i].handled == p.handled + [e])
        && (p.kind.RecoveryManager? && (e.Arrived? ==> !e.kind.Vote? && !e.kind.SyncInfo?) ==>
            procs[i].handled == p.handled)
      ensures RoundEvent(old(procs)[i].events[k]) && Pure(old(procs)[i].events[k], procs[i].es, passed)
    {
      assert ProcAt(procs, i, passed);
      TakeEventOk(procs[i], k, passed);
      Become(i, TakeEvent(procs[i], k));
    }

    method HandleProposal(i: nat, k: nat)
      requires Inv() && i < |procs| && procs[i].life.Running? && k < |procs[i].proposals|
      modifies this`procs
      ensures Inv() && SafeStep(old(procs), procs)
      ensures procs == old(procs)[i := TakeProposal(old(procs)[i], k)]
      ensures procs[i].proposals == Without(old(procs)[i].proposals, k) && procs[i].events == old(procs)[i].events
      ensures procs[i].handled == old(procs)[i].handled + [old(procs)[i].proposals[k]]
      ensures ProposalEvent(old(procs)[i].proposals[k]) && Pure(old(procs)[i].proposals[k], procs[i].es, passed)
    {
      assert ProcAt(procs, i, passed);
      TakeProposalOk(procs[i], k, passed);
      Become(i, TakeProposal(procs[i], k));
    }

    method HandleRpc(i: nat, k: nat)
      requires Inv() && i < |procs| && procs[i].life.Running? && k < |procs[i].rpcs|
      modifies this`procs
      ensures Inv() && SafeStep(old(procs), procs)
      ensures procs == old(procs)[i := TakeRpc(old(procs)[i], k)]
      ensures procs[i].rpcs == Without(old(procs)[i].rpcs, k)
      ensures procs[i].handledRpcs == old(procs)[i].handledRpcs + [old(procs)[i].rpcs[k]]
      ensures old(procs)[i].rpcs[k] == procs[i].es.epoch
    {
      assert ProcAt(procs, i, passed);
      TakeRpcOk(procs[i], k, passed);
      Become(i, TakeRpc(procs[i], k));
    }

    /** Back pressure: a round manager resends a proposal it has handled to itself, possibly long after. */
    method Resend(i: nat, k: nat)
      requires Inv() && i < |procs| && procs[i].kind.RoundManager?
      requires k < |procs[i].handled| && ProposalEvent(procs[i].handled[k])
      modifies this`procs
      ensures Inv() && SafeStep(old(procs), procs)
      ensures var e := old(procs)[i].handled[k];
        procs == PushedProposal(old(procs), i, Delayed(e.epoch, e.own, e.checker))
    {
      assert ProcAt(procs, i, passed);
      var e := procs[i].handled[k];
      assert Pure(e, procs[i].es, passed);
      PushProposal(i, Again(e));
    }

    /** A full queue drops an entry. */
    method Lose(i: nat, k: nat, proposal: bool)
      requires Inv() && i < |procs| && k < |if proposal then procs[i].proposals else procs[i].events|
      modifies this`procs
      ensures Inv() && SafeStep(old(procs), procs) && procs == old(procs)[i := Lost(old(procs)[i], k, proposal)]
      ensures procs[i].handled == old(procs)[i].handled
      ensures procs[i].events == if proposal then old(procs)[i].events else Without(old(procs)[i].events, k)
      ensures procs[i].proposals == if proposal then Without(old(procs)[i].proposals, k) else old(procs)[i].proposals
    {
      assert ProcAt(procs, i, passed);
      Become(i, Lost(procs[i], k, proposal));
    }

    /** The processor sees the close request, acks and leaves its loop. */
    method AckClose(i: nat)
      requires Inv() && i < |procs| && procs[i].life.Running? && procs[i].closing
      modifies this`procs
      ensures Inv() && SafeStep(old(procs), procs) && procs == old(procs)[i := old(procs)[i].(life := Acked)]
    {
      assert ProcAt(procs, i, passed);
      Become(i, procs[i].(life := Acked));
    }

    method DropReceivers(i: nat)
      requires Inv() && i < |procs| && procs[i].life.Acked?
      modifies this`procs
      ensures Inv() && SafeStep(old(procs), procs) && procs == old(procs)[i := old(procs)[i].(life := Gone)]
    {
      assert ProcAt(procs, i, passed);
      Become(i, procs[i].(life := Gone));
    }
  }
}
