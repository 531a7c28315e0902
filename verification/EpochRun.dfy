/** Whole runs of one consensus node, for every order of messages, task completions, processor steps,
    acks and reconfigurations. */
module EpochRun {
  import opened Wrappers
  import opened EpochTypes
  import opened EpochManager

  /** A step whose guard does not hold does nothing. */
  datatype Step =
    | Network(kind: Kind, epoch: Option<nat>, own: bool, optProposals: bool)
    | Proof(epoch: Option<nat>, valid: bool)
    | Retrieval(first: nat, end: nat)
    | RpcIn(request: RpcRequest)
    | Timeout
    | AckArrives
    | Reconfig(es: EpochState, start: Start, quorumStore: bool)
    | TaskDone(task: nat, ok: bool)
    | Handle(proc: nat, k: nat, proposal: bool)
    | ServeRpc(proc: nat, k: nat)
    | SendAgain(proc: nat, k: nat)
    | Overflow(proc: nat, k: nat, proposal: bool)
    | Ack(proc: nat)
    | Vanish(proc: nat)

  // ---------- what a step comes to ----------

  /** Is it a step of the manager, or of a task or processor? */
  predicate OfManager(s: Step) {
    s.Network? || s.Proof? || s.Retrieval? || s.RpcIn? || s.Timeout? || s.AckArrives? || s.Reconfig?
  }

  function Received(st: State, kind: Kind, epoch: Option<nat>, own: bool, optProposals: bool): State
    requires st.es.Some? && st.procs != []
  {
    match RouteOf(kind)
    case Consensus => OnMessage(st, Event(kind, epoch, own), optProposals)
    case QuorumStore => OnMessage(st, Event(kind, epoch, own), optProposals)
    case Rpc => OnRpc(st, Commit(epoch))
    case Nowhere => st
  }

  function IdleNext(st: State, s: Step): State
    requires st.es.Some? && st.procs != []
  {
    match s
    case Network(kind, epoch, own, opt) => Received(st, kind, epoch, own, opt)
    case Proof(epoch, valid) => OnMessage(st, EpochProof(epoch, valid), true)
    case Retrieval(first, end) => OnMessage(st, EpochRetrieval(first, end), true)
    case RpcIn(r) => OnRpc(st, r)
    case Timeout =>
      if st.roundTx.Some? then st.(procs := PushedEvent(st.procs, st.roundTx.value, LocalTimeout)) else st
    case _ => st
  }

  /** Suspended, the manager takes nothing but what it waits for. */
  function ManagerNext(st: State, s: Step): State {
    match st.phase
    case Idle => if st.es.Some? && st.procs != [] then IdleNext(st, s) else st
    case AwaitReconfig => if s.Reconfig? then Started(st, s.es, s.start, s.quorumStore) else st
    case _ =>
      if s.AckArrives? && st.procs != [] && !st.procs[|st.procs| - 1].life.Running?
      then st.(roundTx := None, phase := AwaitReconfig) else st
  }

  function ProcNext(p: Proc, s: Step): Proc {
    match s
    case Handle(_, k, proposal) =>
      if !p.life.Running? then p
      else if proposal then if k < |p.proposals| then TakeProposal(p, k) else p
      else if k < |p.events| then TakeEvent(p, k) else p
    case ServeRpc(_, k) => if p.life.Running? && k < |p.rpcs| then TakeRpc(p, k) else p
    case Overflow(_, k, proposal) =>
      if k < |if proposal then p.proposals else p.events| then Lost(p, k, proposal) else p
    case Ack(_) => if p.life.Running? && p.closing then p.(life := Acked) else p
    case Vanish(_) => if p.life.Acked? then p.(life := Gone) else p
    case _ => p
  }

  predicate CanResend(p: Proc, k: nat) { p.kind.RoundManager? && k < |p.handled| && ProposalEvent(p.handled[k]) }

  /** Steps of tasks and processors do not wait for the manager. */
  function OtherNext(st: State, s: Step): State
    requires !OfManager(s)
  {
    if s.TaskDone? then
      if s.task >= |st.tasks| then st
      else
        var t := st.tasks[s.task];
        st.(tasks := Without(st.tasks, s.task),
            passed := st.passed + if s.ok then {Pass(t.kind, t.es)} else {},
            procs := if Succeeds(t, s.ok) then Forwarded(st.procs, t) else st.procs)
    else if s.proc >= |st.procs| then st
    else if s.SendAgain? then
      if CanResend(st.procs[s.proc], s.k)
      then st.(procs := PushedProposal(st.procs, s.proc, Again(st.procs[s.proc].handled[s.k]))) else st
    else st.(procs := st.procs[s.proc := ProcNext(st.procs[s.proc], s)])
  }

  function Next(st: State, s: Step): State { if OfManager(s) then ManagerNext(st, s) else OtherNext(st, s) }

  // ---------- what is safe ----------

  /** A close handle leads to a running processor that has not been asked to close. */
  predicate HandleOk(h: Option<nat>, procs: seq<Proc>) {
    h.Some? ==> h.value < |procs| && procs[h.value].life.Running? && !procs[h.value].closing
  }

  /** At most one processor runs; while the manager is idle exactly one does, its handle is held and
      it serves the manager's epoch. */
  ghost predicate OneProcessor(s: State) {
    && (forall i, j | 0 <= i < |s.procs| && 0 <= j < |s.procs| ::
          s.procs[i].life.Running? && s.procs[j].life.Running? ==> i == j)
    && HandleOk(s.roundClose, s.procs) && HandleOk(s.dagClose, s.procs)
    && (s.roundClose.None? || s.dagClose.None?)
    && (s.phase.Idle? ==> exists i ::
          0 <= i < |s.procs| && s.procs[i].life.Running? && s.es == Some(s.procs[i].es)
          && (s.roundClose == Some(i) || s.dagClose == Some(i)))
  }

  /** Every event a processor has handled belongs to its own epoch; if another node sent it and it is
      not a sync info, it was checked with the processor's own verifier, and the check succeeded.  Every
      event queued for a round manager has a case in the loop that will take it, and a recovery manager
      acts on votes and sync infos only: its case for proposals is never reached. */
  ghost predicate EpochPure(procs: seq<Proc>, passed: set<Pass>) {
    forall i :: 0 <= i < |procs| ==> ProcPure(procs[i], passed)
  }

  ghost predicate ProcPure(p: Proc, passed: set<Pass>) {
    && (forall e :: e in p.handled ==> Pure(e, p.es, passed))
    && (forall r :: r in p.handledRpcs ==> r == p.es.epoch)
    && (forall e :: e in p.events ==> RoundEvent(e))
    && (forall e :: e in p.proposals ==> ProposalEvent(e))
    && (p.kind.RecoveryManager? ==> p.proposals == [] && forall e :: e in p.handled ==> RecoveryEvent(e))
  }

  ghost predicate Safe(s: State) { OneProcessor(s) && EpochPure(s.procs, s.passed) }

  lemma InvIsSafe(n: Node)
    requires n.Inv()
    ensures Safe(n.View())
  {
    forall i | 0 <= i < |n.procs| ensures ProcPure(n.procs[i], n.passed) { assert ProcAt(n.procs, i, n.passed); }
  }

  // ---------- the node takes a step ----------

  /** What the network task makes of a direct-send message: whatever becomes a task is of a kind the
      conversion to an unverified event accepts. */
  method FromNetwork(n: Node, kind: Kind, epoch: Option<nat>, own: bool, optProposals: bool)
    requires n.Inv() && n.phase.Idle?
    modifies n
    ensures n.Inv() && SafeStep(old(n.procs), n.procs)
    ensures n.View() == Received(old(n.View()), kind, epoch, own, optProposals)
    ensures n.tasks != old(n.tasks) <==>
      Convertible(kind) && Admitted(old(n.View()), Event(kind, epoch, own), optProposals)
  {
    match RouteOf(kind) {
      case Consensus | QuorumStore => var _ := n.ProcessMessage(Event(kind, epoch, own), optProposals);
      case Rpc => var _ := n.ProcessRpcRequest(Commit(epoch));
      case Nowhere =>
    }
  }

  method IdleStep(n: Node, s: Step)
    requires n.Inv() && n.phase.Idle?
    modifies n
    ensures n.Inv() && SafeStep(old(n.procs), n.procs) && n.View() == IdleNext(old(n.View()), s)
  {
    if s.Network? {
      FromNetwork(n, s.kind, s.epoch, s.own, s.optProposals);
    } else if s.Proof? || s.Retrieval? {
      var m := if s.Proof? then EpochProof(s.epoch, s.valid) else EpochRetrieval(s.first, s.end);
      var _ := n.ProcessMessage(m, true);
    } else if s.RpcIn? {
      var _ := n.ProcessRpcRequest(s.request);
    } else if s.Timeout? {
      n.ProcessLocalTimeout();
    }
  }

  method ManagerStep(n: Node, s: Step)
    requires n.Inv()
    modifies n
    ensures n.Inv() && SafeStep(old(n.procs), n.procs) && n.View() == ManagerNext(old(n.View()), s)
  {
    if n.phase.Idle? {
      IdleStep(n, s);
    } else if n.phase.AwaitReconfig? {
      if s.Reconfig? { n.StartNewEpoch(s.es, s.start, s.quorumStore); }
    } else if s.AckArrives? && !n.procs[|n.procs| - 1].life.Running? {
      n.ReceiveAck();
    }
  }

  method HandleStep(n: Node, i: nat, k: nat, proposal: bool)
    requires n.Inv() && i < |n.procs|
    modifies n`procs
    ensures n.Inv() && SafeStep(old(n.procs), n.procs)
    ensures n.procs == old(n.procs)[i := ProcNext(old(n.procs)[i], Handle(i, k, proposal))]
  {
    if n.procs[i].life.Running? {
      if proposal {
        if k < |n.procs[i].proposals| { n.HandleProposal(i, k); }
      } else if k < |n.procs[i].events| {
        n.HandleEvent(i, k);
      }
    }
  }

  /** One processor on its own. */
  method ProcStep(n: Node, s: Step)
    requires n.Inv() && (s.Handle? || s.ServeRpc? || s.Overflow? || s.Ack? || s.Vanish?) && s.proc < |n.procs|
    modifies n`procs
    ensures n.Inv() && SafeStep(old(n.procs), n.procs)
    ensures n.procs == old(n.procs)[s.proc := ProcNext(old(n.procs)[s.proc], s)]
  {
    var p := n.procs[s.proc];
    if s.Handle? {
      HandleStep(n, s.proc, s.k, s.proposal);
    } else if s.ServeRpc? {
      if p.life.Running? && s.k < |p.rpcs| { n.HandleRpc(s.proc, s.k); }
    } else if s.Overflow? {
      if s.k < |if s.proposal then p.proposals else p.events| { n.Lose(s.proc, s.k, s.proposal); }
    } else if s.Ack? {
      if p.life.Running? && p.closing { n.AckClose(s.proc); }
    } else if p.life.Acked? {
      n.DropReceivers(s.proc);
    }
  }

  method OtherStep(n: Node, s: Step)
    requires n.Inv() && !OfManager(s)
    modifies n
    ensures n.Inv() && SafeStep(old(n.procs), n.procs) && n.View() == OtherNext(old(n.View()), s)
  {
    if s.TaskDone? {
      if s.task < |n.tasks| { n.FinishTask(s.task, s.ok); }
    } else if s.proc < |n.procs| {
      if s.SendAgain? {
        if CanResend(n.procs[s.proc], s.k) { n.Resend(s.proc, s.k); }
      } else {
        ProcStep(n, s);
      }
    }
  }

  /** One step of a run: the state is the one the step determines, and it is safe. */
  ghost predicate StepOk(a: State, s: Step, b: State) { b == Next(a, s) && Safe(b) && SafeStep(a.procs, b.procs) }

  /** In this step the check of such a message ends well. */
  predicate Passes(st: State, s: Step, x: Pass) {
    && s.TaskDone? && s.ok && s.task < |st.tasks|
    && st.tasks[s.task].kind == x.kind && st.tasks[s.task].es == x.es
  }

  ghost predicate PassedBefore(trace: seq<State>, steps: seq<Step>, k: nat, x: Pass)
    requires k <= |steps| && |trace| == |steps| + 1
  {
    exists j :: 0 <= j < k && Passes(trace[j], steps[j], x)
  }

  /** The record of checks holds nothing else. */
  lemma {:induction false} RecordIsTrue(trace: seq<State>, steps: seq<Step>, k: nat, x: Pass)
    requires |trace| == |steps| + 1 && trace[0] == Created() && k <= |steps|
    requires forall j :: 0 <= j < |steps| ==> StepOk(trace[j], steps[j], trace[j + 1])
    requires x in trace[k].passed
    ensures PassedBefore(trace, steps, k, x)
    decreases k
  {
    if k > 0 {
      assert StepOk(trace[k - 1], steps[k - 1], trace[k]);
      if x in trace[k - 1].passed {
        RecordIsTrue(trace, steps, k - 1, x);
      } else {
        NewInRecord(trace[k - 1], steps[k - 1], x);
      }
    }
  }

  lemma NewInRecord(st: State, s: Step, x: Pass)
    requires x in Next(st, s).passed && x !in st.passed
    ensures Passes(st, s, x)
  {
  }

  method Take(n: Node, s: Step)
    requires n.Inv()
    modifies n
    ensures n.Inv() && StepOk(old(n.View()), s, n.View())
  {
    if OfManager(s) { ManagerStep(n, s); } else { OtherStep(n, s); }
    InvIsSafe(n);
  }

  /** In every run the node goes through exactly the states its steps determine, and in all of them: one
      processor at a time, a new one only after the old one has acked, and no processor ever handles an
      event of another epoch. */
  method Run(inSet: nat -> bool, steps: seq<Step>) returns (trace: seq<State>)
    ensures |trace| == |steps| + 1 && trace[0] == Created() && Safe(trace[0])
    ensures forall k :: 0 <= k < |steps| ==> StepOk(trace[k], steps[k], trace[k + 1])
    ensures forall k, x :: 0 <= k <= |steps| && x in trace[k].passed ==> PassedBefore(trace, steps, k, x)
  {
    var n := new Node(inSet);
    InvIsSafe(n);
    trace := [n.View()];
    for i := 0 to |steps|
      invariant n.Inv() && |trace| == i + 1 && trace[0] == Created() && Safe(trace[0]) && trace[i] == n.View()
      invariant forall k :: 0 <= k < i ==> StepOk(trace[k], steps[k], trace[k + 1])
    {
      Take(n, steps[i]);
      trace := trace + [n.View()];
    }
    forall k, x | 0 <= k <= |steps| && x in trace[k].passed ensures PassedBefore(trace, steps, k, x) {
      RecordIsTrue(trace, steps, k, x);
    }
  }

  // ---------- messages get through ----------

  /** The task that verifies a message of another node. */
  function TaskFor(st: State, kind: Kind): Task
    requires st.es.Some?
  {
    Task(st.es.value, kind, st.es.value.epoch, false, st.roundTx, st.bufferedTx)
  }

  /** An event of the current epoch is received, verified and forwarded. */
  method Deliver(n: Node, kind: Kind)
    requires n.Inv() && n.phase.Idle? && RouteOf(kind).Consensus? && !kind.OptProposal?
    modifies n
    ensures n.Inv() && n.phase.Idle? && n.epochState == old(n.epochState)
    ensures n.procs == Forwarded(old(n.procs), TaskFor(old(n.View()), kind))
  {
    var _ := n.ProcessMessage(Event(kind, Some(n.epochState.value.epoch), false), false);
    n.FinishTask(|n.tasks| - 1, true);
  }

  /** An event of the current epoch for which the running processor has a case is received, verified,
      forwarded and handled. */
  method EventIsHandled(n: Node, kind: Kind)
    requires n.Inv() && n.phase.Idle? && HasCase(n.procs[|n.procs| - 1].kind, Arrived(kind, 0, false, None))
    modifies n
    ensures n.Inv() && |n.procs| == |old(n.procs)|
    ensures var last, es := |n.procs| - 1, old(n.epochState).value;
      n.procs[last].handled
        == old(n.procs)[last].handled + [Arrived(kind, es.epoch, false, CheckerOf(kind, false, es.verifier))]
  {
    var last := |n.procs| - 1;
    Deliver(n, kind);
    n.HandleEvent(last, |n.procs[last].events| - 1);
  }

  /** ... and so does a proposal, to a round manager. */
  method ProposalIsHandled(n: Node)
    requires n.Inv() && n.phase.Idle? && n.procs[|n.procs| - 1].kind.RoundManager?
    modifies n
    ensures n.Inv() && |n.procs| == |old(n.procs)|
    ensures var last, es := |n.procs| - 1, old(n.epochState).value;
      n.procs[last].handled == old(n.procs)[last].handled + [Arrived(Proposal, es.epoch, false, Some(es.verifier))]
  {
    var last := |n.procs| - 1;
    Deliver(n, Proposal);
    n.HandleProposal(last, |n.procs[last].proposals| - 1);
  }
}
