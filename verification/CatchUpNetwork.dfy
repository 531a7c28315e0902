/** The catch-up protocol between honest nodes.  Packets are never removed from the network, so every
    one may arrive any number of times, in any order, or never. */
module CatchUpNetwork {
  import opened Wrappers
  import opened EpochTypes
  import opened EpochManager
  import opened CatchUp

  /** The epoch of a node's manager and how many epochs have ended in its storage. */
  datatype Peer = Peer(epoch: nat, stored: nat)

  datatype Payload =
    | Message(epoch: nat)
    | Ask(start: nat, end: nat)
    | Give(proof: seq<LedgerInfo>)

  datatype Packet = Packet(src: nat, dst: nat, payload: Payload)

  datatype Net = Net(peers: seq<Peer>, packets: set<Packet>, history: seq<LedgerInfo>)

  /** `failed` marks every early return with an error: a request beyond the local epoch, an equal epoch
      in the different-epoch branch, an empty or rejected proof, a storage error. */
  datatype Reaction = Reaction(peer: Peer, reply: Option<Payload>, failed: bool)

  /** Storage: the ledger infos that end epochs `start .. end`, at most a page of them. */
  function ServeProof(h: seq<LedgerInfo>, me: Peer, start: nat, end: nat): Reaction
    requires me.stored <= |h|
  {
    if start <= end <= me.stored then
      var stop := if end - start > MAX_LEDGER_INFOS then start + MAX_LEDGER_INFOS else end;
      Reaction(me, Some(Give(h[start..stop])), false)
    else Reaction(me, None, true)
  }

  /** An accepted proof brings the storage to its end; then the manager restarts with the epoch it is
      notified of, which is later than its own and known to its storage. */
  function NextEpoch(me: Peer, target: nat, notified: nat): (p: Peer)
    requires me.epoch < target
  {
    var stored := if me.stored < target then target else me.stored;
    Peer(if me.epoch < notified <= stored then notified else target, stored)
  }

  function React(h: seq<LedgerInfo>, genesis: EpochState, me: Peer, m: Payload, inSet: bool, notified: nat): Reaction
    requires me.epoch <= me.stored <= |h|
  {
    match m
    case Message(e) =>
      if e == me.epoch then Reaction(me, None, false)
      else (match DifferentEpoch(me.epoch, e, inSet)
        case Ok(None) => Reaction(me, None, false)
        case Ok(Some(SendRequest(start, end))) => Reaction(me, Some(Ask(start, end)), false)
        case Ok(Some(SendProof(start, end))) => ServeProof(h, me, start, end)
        case Err(_) => Reaction(me, None, true))
    case Ask(start, end) =>
      if end <= me.epoch then ServeProof(h, me, start, end) else Reaction(me, None, true)
    case Give(lis) =>
      if lis == [] then Reaction(me, None, true)
      else if lis[0].epoch != me.epoch then Reaction(me, None, false)
      else
        var es := StateOf(h, genesis, me.epoch);
        if es.Some? && Accepts(es.value, lis) && me.epoch <= lis[|lis| - 1].epoch
        then Reaction(NextEpoch(me, lis[|lis| - 1].epoch + 1, notified), None, false)
        else Reaction(me, None, true)
  }

  // ---------- steps ----------

  datatype Step =
    | Send(src: nat, dst: nat)                 // any consensus message of the sender's epoch
    | Announce(src: nat, dst: nat)             // the end of the sender's epoch
    | Deliver(packet: Packet, inSet: bool, notified: nat)
    | Store(peer: nat, upTo: nat)              // commit or state sync
    | EndEpoch(nextVerifier: nat)

  ghost predicate Delivers(n: Net, s: Step) {
    s.Deliver? && s.packet in n.packets && s.packet.src < |n.peers| && s.packet.dst < |n.peers|
    && n.peers[s.packet.dst].epoch <= n.peers[s.packet.dst].stored <= |n.history|
  }

  ghost function Outcome(n: Net, genesis: EpochState, s: Step): Reaction
    requires Delivers(n, s)
  {
    React(n.history, genesis, n.peers[s.packet.dst], s.packet.payload, s.inSet, s.notified)
  }

  ghost function Apply(n: Net, genesis: EpochState, s: Step): Net {
    match s
    case Send(p, q) =>
      if p < |n.peers| && q < |n.peers| then n.(packets := n.packets + {Packet(p, q, Message(n.peers[p].epoch))}) else n
    case Announce(p, q) =>
      if p < |n.peers| && q < |n.peers| && n.peers[p].epoch < n.peers[p].stored <= |n.history|
      then n.(packets := n.packets + {Packet(p, q, Give([n.history[n.peers[p].epoch]]))}) else n
    case Deliver(pkt, _, _) =>
      if !Delivers(n, s) then n
      else
        var r := Outcome(n, genesis, s);
        n.(peers := n.peers[pkt.dst := r.peer],
           packets := if r.reply.Some? then n.packets + {Packet(pkt.dst, pkt.src, r.reply.value)} else n.packets)
    case Store(p, k) =>
      if p < |n.peers| && n.peers[p].stored <= k <= |n.history|
      then n.(peers := n.peers[p := n.peers[p].(stored := k)]) else n
    case EndEpoch(v) =>
      var es := StateOf(n.history, genesis, |n.history|);
      if es.Some?
      then n.(history := n.history + [LedgerInfo(|n.history|, es.value.verifier, Some(EpochState(|n.history| + 1, v)))])
      else n
  }

  // ---------- invariant ----------

  predicate PacketOk(n: Net, p: Packet) {
    && p.src < |n.peers| && p.dst < |n.peers|
    && match p.payload
       case Message(e) => e <= n.peers[p.src].epoch
       case Ask(start, end) => start < end <= n.peers[p.dst].epoch && start <= n.peers[p.src].epoch
       case Give(lis) =>
         lis != [] && lis[0].epoch + |lis| <= |n.history| && lis == n.history[lis[0].epoch..lis[0].epoch + |lis|]
  }

  ghost predicate Inv(n: Net, genesis: EpochState) {
    && History(n.history, genesis)
    && (forall i :: 0 <= i < |n.peers| ==> n.peers[i].epoch <= n.peers[i].stored <= |n.history|)
    && (forall p :: p in n.packets ==> PacketOk(n, p))
  }

  /** No epoch goes back and no history is rewritten. */
  ghost predicate Forward(a: Net, b: Net) {
    && |a.peers| == |b.peers| && a.history <= b.history
    && (forall i :: 0 <= i < |a.peers| ==>
        a.peers[i].epoch <= b.peers[i].epoch && a.peers[i].stored <= b.peers[i].stored)
  }

  lemma PacketStays(a: Net, b: Net, p: Packet)
    requires PacketOk(a, p) && Forward(a, b)
    ensures PacketOk(b, p)
  {
  }

  lemma {:induction false} StretchAccepted(h: seq<LedgerInfo>, genesis: EpochState, a: nat, b: nat)
    requires History(h, genesis) && a < b <= |h|
    ensures StateOf(h, genesis, a).Some? && Accepts(StateOf(h, genesis, a).value, h[a..b])
    ensures h[a..b][b - a - 1].epoch == b - 1
  {
    HistoryChained(h, genesis, a, b);
    StateKnown(h, genesis, a);
    assert EndsAt(h, genesis, a) && EndsAt(h, genesis, b - 1);
    assert h[a..b][b - a - 1] == h[b - 1];
  }

  /** No delivery fails; a proof of another epoch changes nothing; a proof of the node's own epoch
      moves it forward; and whatever is sent back is again what the invariant promises. */
  lemma {:induction false} DeliveryNeverFails(n: Net, genesis: EpochState, s: Step)
    requires Inv(n, genesis) && Delivers(n, s)
    ensures var r, me := Outcome(n, genesis, s), n.peers[s.packet.dst];
      && !r.failed && me.epoch <= r.peer.epoch <= r.peer.stored <= |n.history| && me.stored <= r.peer.stored
      && (s.packet.payload.Give? ==>
            if s.packet.payload.proof[0].epoch == me.epoch then me.epoch < r.peer.epoch else r.peer == me)
      && (!s.packet.payload.Give? ==> r.peer == me)
      && (r.reply.Some? ==> PacketOk(n, Packet(s.packet.dst, s.packet.src, r.reply.value)))
  {
    var me, m := n.peers[s.packet.dst], s.packet.payload;
    assert PacketOk(n, s.packet);
    match m
    case Message(e) =>
      if e < me.epoch && !s.inSet { ServedStretch(n, genesis, me, e, me.epoch); }
    case Ask(start, end) => ServedStretch(n, genesis, me, start, end);
    case Give(lis) =>
      if lis[0].epoch == me.epoch { OwnProof(n.history, genesis, me, lis, s.inSet, s.notified); }
  }

  lemma {:induction false} OwnProof(h: seq<LedgerInfo>, genesis: EpochState, me: Peer, lis: seq<LedgerInfo>,
      inSet: bool, notified: nat)
    requires History(h, genesis) && me.epoch <= me.stored <= |h|
    requires lis != [] && lis[0].epoch == me.epoch && me.epoch + |lis| <= |h| && lis == h[me.epoch..me.epoch + |lis|]
    ensures var r := React(h, genesis, me, Give(lis), inSet, notified);
      && !r.failed && r.reply.None? && me.epoch < r.peer.epoch <= r.peer.stored <= |h|
      && r.peer.stored == (if me.stored < me.epoch + |lis| then me.epoch + |lis| else me.stored)
      && r.peer.epoch == (if me.epoch < notified <= r.peer.stored then notified else me.epoch + |lis|)
  {
    StretchAccepted(h, genesis, me.epoch, me.epoch + |lis|);
  }

  lemma ServedStretch(n: Net, genesis: EpochState, me: Peer, start: nat, end: nat)
    requires History(n.history, genesis) && start < end <= me.epoch <= me.stored <= |n.history|
    ensures var r := ServeProof(n.history, me, start, end);
      !r.failed && r.peer == me && r.reply.Some? && r.reply.value.Give?
      && var lis := r.reply.value.proof;
         && lis != [] && lis[0].epoch == start && start + |lis| <= |n.history| && lis == n.history[start..start + |lis|]
         && (|lis| == 100 || (|lis| < 100 && start + |lis| == end))
  {
    assert EndsAt(n.history, genesis, start);
  }

  lemma {:induction false} StepKeeps(n: Net, genesis: EpochState, s: Step)
    requires Inv(n, genesis)
    ensures Inv(Apply(n, genesis, s), genesis) && Forward(n, Apply(n, genesis, s))
  {
    var n' := Apply(n, genesis, s);
    match s {
      case Send(_, _) =>
      case Announce(p, q) =>
        if p < |n.peers| && n.peers[p].epoch < n.peers[p].stored {
          assert EndsAt(n.history, genesis, n.peers[p].epoch);
        }
      case Deliver(_, _, _) =>
        if Delivers(n, s) { DeliveryNeverFails(n, genesis, s); }
      case Store(_, _) =>
      case EndEpoch(v) =>
        StateKnown(n.history, genesis, |n.history|);
        forall e | 0 <= e < |n'.history| ensures EndsAt(n'.history, genesis, e) {
          if e < |n.history| { assert EndsAt(n.history, genesis, e); }
        }
    }
    assert Forward(n, n');
    forall p | p in n'.packets ensures PacketOk(n', p) {
      if p in n.packets { PacketStays(n, n', p); }
    }
  }

  // ---------- runs ----------

  ghost function RunFrom(n: Net, genesis: EpochState, steps: seq<Step>): Net
    decreases |steps|
  {
    if steps == [] then n else RunFrom(Apply(n, genesis, steps[0]), genesis, steps[1..])
  }

  ghost predicate NoFailure(n: Net, genesis: EpochState, steps: seq<Step>)
    decreases |steps|
  {
    steps == [] ||
      (&& (Delivers(n, steps[0]) ==> !Outcome(n, genesis, steps[0]).failed)
       && NoFailure(Apply(n, genesis, steps[0]), genesis, steps[1..]))
  }

  lemma ForwardTransitive(a: Net, b: Net, c: Net)
    requires Forward(a, b) && Forward(b, c)
    ensures Forward(a, c)
  {
  }

  /** In every run of honest nodes no delivery ever fails, epochs only advance, and every request on
      its way asks a node for epochs that node has already ended. */
  lemma {:induction false} EveryRunIsSafe(n: Net, genesis: EpochState, steps: seq<Step>)
    requires Inv(n, genesis)
    ensures NoFailure(n, genesis, steps) && Forward(n, RunFrom(n, genesis, steps))
    ensures Inv(RunFrom(n, genesis, steps), genesis)
    ensures var end := RunFrom(n, genesis, steps);
      forall p :: p in end.packets && p.payload.Ask? ==>
        p.dst < |end.peers| && p.payload.start < p.payload.end <= end.peers[p.dst].epoch
    decreases |steps|
  {
    if steps != [] {
      var next := Apply(n, genesis, steps[0]);
      StepKeeps(n, genesis, steps[0]);
      if Delivers(n, steps[0]) { DeliveryNeverFails(n, genesis, steps[0]); }
      EveryRunIsSafe(next, genesis, steps[1..]);
      ForwardTransitive(n, next, RunFrom(n, genesis, steps));
    }
    var end := RunFrom(n, genesis, steps);
    forall p | p in end.packets && p.payload.Ask?
      ensures p.dst < |end.peers| && p.payload.start < p.payload.end <= end.peers[p.dst].epoch
    {
      assert PacketOk(end, p);
    }
  }

  // ---------- a node that is behind gets ahead ----------

  /** One exchange with a node ahead: a message, the request it provokes, the proof, the restart. */
  ghost function Exchange(n: Net, p: nat, q: nat): seq<Step>
    requires p < |n.peers| && q < |n.peers| && n.peers[q].epoch < n.peers[p].epoch <= n.peers[p].stored <= |n.history|
  {
    var mine, theirs := n.peers[q].epoch, n.peers[p].epoch;
    [Send(p, q),
     Deliver(Packet(p, q, Message(theirs)), true, 0),
     Deliver(Packet(q, p, Ask(mine, theirs)), true, 0),
     Deliver(Packet(p, q, Give(n.history[mine..PageEnd(mine, theirs)])), true, 0)]
  }

  function PageEnd(start: nat, end: nat): nat {
    if end - start > MAX_LEDGER_INFOS then start + MAX_LEDGER_INFOS else end
  }

  lemma {:induction false} ExchangeAdvances(n: Net, genesis: EpochState, p: nat, q: nat)
    requires Inv(n, genesis) && p < |n.peers| && q < |n.peers| && n.peers[q].epoch < n.peers[p].epoch
    ensures var end := RunFrom(n, genesis, Exchange(n, p, q));
      |end.peers| == |n.peers| && end.peers[p] == n.peers[p]
      && end.peers[q].epoch == PageEnd(n.peers[q].epoch, n.peers[p].epoch)
  {
    var steps := Exchange(n, p, q);
    var mine, theirs := n.peers[q].epoch, n.peers[p].epoch;
    var a := Apply(n, genesis, steps[0]);
    var b := Apply(a, genesis, steps[1]);
    MessageProvokesAsk(a, genesis, p, q);
    var c := Apply(b, genesis, steps[2]);
    AskProvokesGive(b, genesis, p, q, mine, theirs);
    GiveAdvances(c, genesis, p, q, PageEnd(mine, theirs));
    FourSteps(n, genesis, steps);
  }

  lemma MessageProvokesAsk(n: Net, genesis: EpochState, p: nat, q: nat)
    requires p < |n.peers| && q < |n.peers| && n.peers[q].epoch <= n.peers[q].stored <= |n.history|
    requires n.peers[q].epoch < n.peers[p].epoch && Packet(p, q, Message(n.peers[p].epoch)) in n.packets
    ensures var ask := Packet(q, p, Ask(n.peers[q].epoch, n.peers[p].epoch));
      Apply(n, genesis, Deliver(Packet(p, q, Message(n.peers[p].epoch)), true, 0)) == n.(packets := n.packets + {ask})
  {
  }

  lemma AskProvokesGive(n: Net, genesis: EpochState, p: nat, q: nat, start: nat, end: nat)
    requires p < |n.peers| && q < |n.peers| && start < end <= n.peers[p].epoch <= n.peers[p].stored <= |n.history|
    requires Packet(q, p, Ask(start, end)) in n.packets
    ensures var give := Packet(p, q, Give(n.history[start..PageEnd(start, end)]));
      Apply(n, genesis, Deliver(Packet(q, p, Ask(start, end)), true, 0)) == n.(packets := n.packets + {give})
  {
  }

  lemma {:induction false} GiveAdvances(n: Net, genesis: EpochState, p: nat, q: nat, end: nat)
    requires History(n.history, genesis) && p < |n.peers| && q < |n.peers| && p != q
    requires n.peers[q].epoch <= n.peers[q].stored && n.peers[q].epoch < end <= |n.history|
    requires n.peers[q].stored <= |n.history|
    requires Packet(p, q, Give(n.history[n.peers[q].epoch..end])) in n.packets
    ensures var n' := Apply(n, genesis, Deliver(Packet(p, q, Give(n.history[n.peers[q].epoch..end])), true, 0));
      |n'.peers| == |n.peers| && n'.peers[p] == n.peers[p] && n'.peers[q].epoch == end
  {
    var mine := n.peers[q].epoch;
    StretchAccepted(n.history, genesis, mine, end);
    assert EndsAt(n.history, genesis, mine);
  }

  /** A node announces the end of its epoch, and another node of that epoch moves on. */
  lemma {:induction false} AnnouncementAdvances(n: Net, genesis: EpochState, p: nat, q: nat)
    requires Inv(n, genesis) && p < |n.peers| && q < |n.peers| && p != q
    requires n.peers[q].epoch == n.peers[p].epoch < n.peers[p].stored
    ensures var e := n.peers[p].epoch;
      var a := Apply(n, genesis, Announce(p, q));
      Apply(a, genesis, Deliver(Packet(p, q, Give([n.history[e]])), true, 0)).peers[q].epoch == e + 1
  {
    var e := n.peers[p].epoch;
    assert n.history[e..e + 1] == [n.history[e]];
    GiveAdvances(Apply(n, genesis, Announce(p, q)), genesis, p, q, e + 1);
  }

  /** An epoch may always end, under any next validator set, and any node may store it. */
  lemma EpochEnds(n: Net, genesis: EpochState, v: nat, p: nat)
    requires Inv(n, genesis) && p < |n.peers|
    ensures var n' := Apply(n, genesis, EndEpoch(v));
      && |n'.history| == |n.history| + 1 && n.history <= n'.history
      && StateOf(n'.history, genesis, |n'.history|) == Some(EpochState(|n'.history|, v))
      && Apply(n', genesis, Store(p, |n'.history|)).peers[p] == Peer(n.peers[p].epoch, |n'.history|)
  {
    StateKnown(n.history, genesis, |n.history|);
  }

  /** A node that is not a validator answers a message of an earlier epoch with the proof, unasked, and
      that brings the sender forward. */
  lemma {:induction false} ProofIsPushed(n: Net, genesis: EpochState, p: nat, q: nat)
    requires Inv(n, genesis) && p < |n.peers| && q < |n.peers| && n.peers[q].epoch < n.peers[p].epoch
    ensures var mine, theirs := n.peers[q].epoch, n.peers[p].epoch;
      var a := Apply(n, genesis, Send(q, p));
      var b := Apply(a, genesis, Deliver(Packet(q, p, Message(mine)), false, 0));
      var c := Apply(b, genesis, Deliver(Packet(p, q, Give(n.history[mine..PageEnd(mine, theirs)])), true, 0));
      c.peers[q].epoch == PageEnd(mine, theirs)
  {
    var mine, theirs := n.peers[q].epoch, n.peers[p].epoch;
    var a := Apply(n, genesis, Send(q, p));
    var b := Apply(a, genesis, Deliver(Packet(q, p, Message(mine)), false, 0));
    MessageProvokesGive(a, genesis, p, q);
    GiveAdvances(b, genesis, p, q, PageEnd(mine, theirs));
  }

  lemma MessageProvokesGive(n: Net, genesis: EpochState, p: nat, q: nat)
    requires p < |n.peers| && q < |n.peers| && n.peers[p].epoch <= n.peers[p].stored <= |n.history|
    requires n.peers[q].epoch < n.peers[p].epoch && Packet(q, p, Message(n.peers[q].epoch)) in n.packets
    ensures var mine, theirs := n.peers[q].epoch, n.peers[p].epoch;
      var give := Packet(p, q, Give(n.history[mine..PageEnd(mine, theirs)]));
      Apply(n, genesis, Deliver(Packet(q, p, Message(mine)), false, 0)) == n.(packets := n.packets + {give})
  {
  }

  lemma FourSteps(n: Net, genesis: EpochState, steps: seq<Step>)
    requires |steps| == 4
    ensures RunFrom(n, genesis, steps)
      == Apply(Apply(Apply(Apply(n, genesis, steps[0]), genesis, steps[1]), genesis, steps[2]), genesis, steps[3])
  {
    var a := Apply(n, genesis, steps[0]);
    var b := Apply(a, genesis, steps[1]);
    var c := Apply(b, genesis, steps[2]);
    assert RunFrom(n, genesis, steps) == RunFrom(a, genesis, steps[1..]);
    assert RunFrom(a, genesis, steps[1..]) == RunFrom(b, genesis, steps[1..][1..]);
    assert steps[1..][1..] == steps[2..] && steps[2..][1..] == steps[3..] && steps[3..][1..] == [];
    assert RunFrom(b, genesis, steps[2..]) == RunFrom(c, genesis, steps[3..]);
  }

  lemma {:induction false} RunAppend(n: Net, genesis: EpochState, s: seq<Step>, t: seq<Step>)
    ensures RunFrom(n, genesis, s + t) == RunFrom(RunFrom(n, genesis, s), genesis, t)
    decreases |s|
  {
    if s == [] {
      assert s + t == t;
    } else {
      assert (s + t)[1..] == s[1..] + t;
      RunAppend(Apply(n, genesis, s[0]), genesis, s[1..], t);
    }
  }

  /** However far behind, a node reaches the epoch of a node ahead by repeating the exchange. */
  lemma {:induction false} CatchesUp(n: Net, genesis: EpochState, p: nat, q: nat) returns (steps: seq<Step>)
    requires Inv(n, genesis) && p < |n.peers| && q < |n.peers| && n.peers[q].epoch <= n.peers[p].epoch
    ensures var end := RunFrom(n, genesis, steps);
      |end.peers| == |n.peers| && end.peers[p] == n.peers[p] && end.peers[q].epoch == n.peers[p].epoch
    decreases n.peers[p].epoch - n.peers[q].epoch
  {
    if n.peers[q].epoch == n.peers[p].epoch {
      steps := [];
    } else {
      var first := Exchange(n, p, q);
      EveryRunIsSafe(n, genesis, first);
      ExchangeAdvances(n, genesis, p, q);
      var rest := CatchesUp(RunFrom(n, genesis, first), genesis, p, q);
      RunAppend(n, genesis, first, rest);
      steps := first + rest;
    }
  }
}
