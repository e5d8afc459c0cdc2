/** The network behaviour and the peer set manager together.

    Runs interleave swarm callbacks, handler reports, API calls and timers with the manager's messages.  A
    callback comes in only once `poll` has drained the manager's message queue; handle actions may arrive at
    any time.  The theorem: whenever the queue is empty, the two sides agree about every peer. */
module PeersetAgreement {
  import opened Reputation
  import opened Basics
  import opened PeerTable
  import opened PeersetModel
  import opened PeersetMessages
  import B = PeerBehaviour

  /** The behaviour, its manager, and the peers the swarm has a connection with. */
  datatype System = System(b: B.Behaviour, psm: State, linked: set<PeerId>)

  datatype Step =
    | SwarmConnected(peer: PeerId, point: B.Endpoint)
    | SwarmDisconnected(peer: PeerId, ban: nat)
    | DialFailed(peer: PeerId)
    | HandlerReport(peer: PeerId, out: B.HandlerOut)
    | ApiDisconnect(peer: PeerId)
    | ApiSend(peer: PeerId, message: string)
    | ApiDiscovered(ids: seq<PeerId>)
    | Timer(peer: PeerId)
    | HandleAction(action: Action)
    | PollAct
    | PollMessage

  /** The calls a callback makes on the manager.  `ids` are the peers its slot allocation picks. */
  ghost predicate CallsMade(s: State, calls: seq<B.Call>, now: nat, ids: seq<PeerId>, s': State)
    requires s.created <= s.latest <= now
    decreases |calls|
  {
    if calls == [] then ids == [] && s' == s
    else
      match calls[0]
      case CallReport(p) => CallsMade(s.(rx := s.rx + [ReportPeer(p, I32_MIN)]), calls[1..], now, ids, s')
      case CallIncoming(p, index) => |calls| == 1 && Next(s, Incoming(p, index), now, ids, s')
      case CallDropped(p) => |calls| == 1 && Next(s, Dropped(p), now, ids, s')
  }

  function MessageHandled(b: B.Behaviour, m: Message, now: nat): B.Outcome {
    match m
    case Connect(p) => B.Outcome(B.PsmConnect(b, p, now), [])
    case Drop(p) => B.Outcome(B.PsmDrop(b, p), [])
    case Accept(index) => B.PsmAccept(b, index)
    case Reject(index) => B.Outcome(B.PsmReject(b, index), [])
  }

  /** The callbacks of the behaviour. */
  function Callback(b: B.Behaviour, step: Step, now: nat): B.Outcome {
    match step
    case SwarmConnected(p, point) => B.InjectConnected(b, p, point)
    case SwarmDisconnected(p, ban) => B.InjectDisconnected(b, p, ban, now)
    case DialFailed(p) => B.InjectDialFailure(b, p, now)
    case HandlerReport(p, out) => B.InjectNodeEvent(b, p, out, now)
    case ApiDisconnect(p) => B.DisconnectPeer(b, p, None, now)
    case ApiSend(p, message) => B.Outcome(B.SendPacket(b, p, message), [])
    case Timer(p) => B.Outcome(B.TimerFired(b, p), [])
    case _ => B.Outcome(b, [])
  }

  /** What the swarm promises: connects and disconnects of a peer alternate, handlers report only while connected,
      and an index is left for every connection that nobody asked for. */
  predicate Allowed(sys: System, step: Step) {
    match step
    case SwarmConnected(p, point) => p !in sys.linked && (sys.b.IsUnasked(p, point) ==> sys.b.nextIndex < B.U64_MAX)
    case SwarmDisconnected(p, _) => p in sys.linked
    case HandlerReport(p, _) => p in sys.linked
    case _ => true
  }

  function LinkedAfter(linked: set<PeerId>, step: Step): set<PeerId> {
    match step
    case SwarmConnected(p, _) => linked + {p}
    case SwarmDisconnected(p, _) => linked - {p}
    case _ => linked
  }

  ghost predicate SystemNext(sys: System, step: Step, now: nat, ids: seq<PeerId>, sys': System) {
    && sys.psm.created <= sys.psm.latest <= now
    && Allowed(sys, step)
    && sys'.linked == LinkedAfter(sys.linked, step)
    && match step
       case HandleAction(action) => sys'.b == sys.b && Next(sys.psm, Send(action), now, ids, sys'.psm)
       case PollAct => sys'.b == sys.b && Next(sys.psm, Act, now, ids, sys'.psm)
       case ApiDiscovered(found) => sys.psm.queue == [] && sys'.b == sys.b && Next(sys.psm, Discover(found), now, ids, sys'.psm)
       case PollMessage =>
         && sys.psm.queue != []
         && var o := MessageHandled(sys.b, sys.psm.queue[0], now);
            sys'.b == o.next && CallsMade(sys.psm.(queue := sys.psm.queue[1..]), o.calls, now, ids, sys'.psm)
       case _ =>
         && sys.psm.queue == []
         && var o := Callback(sys.b, step, now);
            sys'.b == o.next && CallsMade(sys.psm, o.calls, now, ids, sys'.psm)
  }

  /** No message outstanding about an incoming connection. */
  ghost predicate NoIncoming(sys: System) {
    && NoneIncoming(sys.b)
    && Explains(sys.b.WantedPeers(), sys.psm.queue, sys.psm.peers)
  }

  /** One incoming connection, of `p`, whose answer is the only message in the queue. */
  ghost predicate OneIncoming(sys: System, p: PeerId) {
    && |sys.b.incoming| == 1 && sys.b.incoming[0] == B.IncomingPeer(p, true, sys.b.incoming[0].index)
    && p in sys.b.peers && sys.b.peers[p].Incoming?
    && (forall q :: q in sys.b.peers && q != p ==> !sys.b.peers[q].Incoming?)
    && (sys.psm.queue == [Accept(sys.b.incoming[0].index)] || sys.psm.queue == [Reject(sys.b.incoming[0].index)])
    && sys.psm.peers.ConnectedPeers() ==
         if sys.psm.queue[0].Accept? then sys.b.WantedPeers() + {p} else sys.b.WantedPeers()
  }

  ghost predicate Inv(sys: System) {
    && sys.psm.Ok()
    && Tracks(sys.b, sys.linked)
    && (NoIncoming(sys) || exists p :: OneIncoming(sys, p))
  }

  /** Both sides agree: a peer is connected for the manager exactly when the behaviour wants it, and no incoming
      connection is waiting for an answer. */
  ghost predicate Agreement(sys: System) {
    && (forall p :: sys.psm.peers.Connected(p) <==> sys.b.IsWanted(p))
    && (forall p :: p in sys.b.peers ==> !sys.b.peers[p].Incoming?)
    && sys.b.incoming == []
  }

  lemma QuiescentAgreement(sys: System)
    requires Inv(sys) && sys.psm.queue == []
    ensures Agreement(sys)
  {
    forall p
      ensures sys.psm.peers.Connected(p) <==> sys.b.IsWanted(p)
    {
      assert sys.psm.peers.Connected(p) <==> p in sys.psm.peers.ConnectedPeers();
      assert sys.b.IsWanted(p) <==> p in sys.b.WantedPeers();
    }
  }

  // ----- every step keeps the invariant

  ghost predicate NoneIncoming(b: B.Behaviour) {
    b.incoming == [] && forall p :: p in b.peers ==> !b.peers[p].Incoming?
  }

  /** What a callback does to the wanted peers matches the calls it makes on the manager: none (or only a report),
      one drop (possibly after a report), or one incoming connection. */
  ghost predicate Accounted(b: B.Behaviour, o: B.Outcome) {
    if |o.calls| == 1 && o.calls[0].CallIncoming? then IncomingAccounted(b, o.calls[0].peer, o)
    else
      && NoneIncoming(o.next)
      && |o.calls| <= 2
      && (|o.calls| == 2 ==> o.calls[0].CallReport? && o.calls[1].CallDropped?)
      && o.next.WantedPeers() == if DropsOne(o.calls) then b.WantedPeers() - {o.calls[|o.calls| - 1].peer} else b.WantedPeers()
  }

  predicate DropsOne(calls: seq<B.Call>) { calls != [] && calls[|calls| - 1].CallDropped? }

  ghost predicate IncomingAccounted(b: B.Behaviour, p: PeerId, o: B.Outcome) {
    && o.calls == [B.CallIncoming(p, b.nextIndex)]
    && o.next.incoming == [B.IncomingPeer(p, true, b.nextIndex)]
    && !b.IsWanted(p) && p in o.next.peers && o.next.peers[p].Incoming?
    && (forall q :: q in o.next.peers && q != p ==> !o.next.peers[q].Incoming?)
    && o.next.WantedPeers() == b.WantedPeers()
  }

  /** No poisoned peer, and the linked peers are `linked`. */
  ghost predicate Tracks(b: B.Behaviour, linked: set<PeerId>) {
    && (forall p :: p in linked <==> b.IsLinked(p))
    && (forall p :: p in b.peers ==> !b.peers[p].Poisoned?)
  }

  lemma ConnectedAccounted(b: B.Behaviour, linked: set<PeerId>, p: PeerId, point: B.Endpoint)
    requires Tracks(b, linked) && NoneIncoming(b) && p !in linked
    requires b.IsUnasked(p, point) ==> b.nextIndex < B.U64_MAX
    ensures var o := B.InjectConnected(b, p, point); Accounted(b, o) && Tracks(o.next, linked + {p})
  {
    var o := B.InjectConnected(b, p, point);
    assert o.next.WantedPeers() == b.WantedPeers();
  }

  lemma DisconnectedAccounted(b: B.Behaviour, linked: set<PeerId>, p: PeerId, ban: nat, now: nat)
    requires Tracks(b, linked) && NoneIncoming(b) && p in linked
    ensures var o := B.InjectDisconnected(b, p, ban, now); Accounted(b, o) && Tracks(o.next, linked - {p})
  {
    var o := B.InjectDisconnected(b, p, ban, now);
    assert o.next.WantedPeers() == b.WantedPeers() - {p};
    assert !b.IsWanted(p) ==> b.WantedPeers() - {p} == b.WantedPeers();
  }

  lemma DialFailureAccounted(b: B.Behaviour, linked: set<PeerId>, p: PeerId, now: nat)
    requires Tracks(b, linked) && NoneIncoming(b)
    ensures var o := B.InjectDialFailure(b, p, now); Accounted(b, o) && Tracks(o.next, linked)
  {
    var o := B.InjectDialFailure(b, p, now);
    assert DropsOne(o.calls) ==> o.next.WantedPeers() == b.WantedPeers() - {p};
  }

  lemma DisconnectPeerAccounted(b: B.Behaviour, linked: set<PeerId>, p: PeerId, ban: Option<nat>, now: nat)
    requires Tracks(b, linked) && NoneIncoming(b)
    ensures var o := B.DisconnectPeer(b, p, ban, now); |o.calls| <= 1 && Accounted(b, o) && Tracks(o.next, linked)
  {
    var o := B.DisconnectPeer(b, p, ban, now);
    assert DropsOne(o.calls) ==> o.next.WantedPeers() == b.WantedPeers() - {p};
  }

  lemma HandlerReportAccounted(b: B.Behaviour, linked: set<PeerId>, p: PeerId, out: B.HandlerOut, now: nat)
    requires Tracks(b, linked) && NoneIncoming(b) && p in linked
    ensures var o := B.InjectNodeEvent(b, p, out, now); Accounted(b, o) && Tracks(o.next, linked)
  {
    var o := B.InjectNodeEvent(b, p, out, now);
    if out.ProtocolError? {
      DisconnectPeerAccounted(b, linked, p, Some(5 * SECOND), now);
    } else {
      assert o.next.WantedPeers() == if DropsOne(o.calls) then b.WantedPeers() - {p} else b.WantedPeers();
    }
  }

  lemma TimerAccounted(b: B.Behaviour, linked: set<PeerId>, p: PeerId)
    requires Tracks(b, linked) && NoneIncoming(b)
    ensures var next := B.TimerFired(b, p); Accounted(b, B.Outcome(next, [])) && Tracks(next, linked)
  {
    assert B.TimerFired(b, p).WantedPeers() == b.WantedPeers();
  }

  /** Every callback accounts for its calls, follows the swarm, and poisons nobody. */
  lemma {:induction false} CallbackAccounted(sys: System, step: Step, now: nat)
    requires Tracks(sys.b, sys.linked) && NoneIncoming(sys.b) && Allowed(sys, step)
    ensures var o := Callback(sys.b, step, now); Accounted(sys.b, o) && Tracks(o.next, LinkedAfter(sys.linked, step))
  {
    match step
    case SwarmConnected(p, point) => ConnectedAccounted(sys.b, sys.linked, p, point);
    case SwarmDisconnected(p, ban) => DisconnectedAccounted(sys.b, sys.linked, p, ban, now);
    case DialFailed(p) => DialFailureAccounted(sys.b, sys.linked, p, now);
    case HandlerReport(p, out) => HandlerReportAccounted(sys.b, sys.linked, p, out, now);
    case ApiDisconnect(p) => DisconnectPeerAccounted(sys.b, sys.linked, p, None, now);
    case ApiSend(p, message) => assert B.SendPacket(sys.b, p, message).WantedPeers() == sys.b.WantedPeers();
    case Timer(p) => TimerAccounted(sys.b, sys.linked, p);
    case _ =>
  }

  predicate NoReports(calls: seq<B.Call>) { forall i :: 0 <= i < |calls| ==> !calls[i].CallReport? }

  /** A peer is reported to the manager exactly for a severe error, and before its connection is given up. */
  lemma ReportedWhenSevere(b: B.Behaviour, step: Step, now: nat)
    ensures var calls := Callback(b, step, now).calls;
            if step.HandlerReport? && step.out == B.ProtocolError(true)
            then calls != [] && calls[0] == B.CallReport(step.peer) && NoReports(calls[1..])
            else NoReports(calls)
  {
    hide B.FindEntry;
  }

  /** The manager answers the calls of a callback so that its queue explains the new difference. */
  lemma CallsExplained(b: B.Behaviour, s: State, o: B.Outcome, now: nat, ids: seq<PeerId>, s': State, linked: set<PeerId>)
    requires s.Ok() && s.queue == [] && s.latest <= now && s.peers.ConnectedPeers() == b.WantedPeers()
    requires Accounted(b, o) && CallsMade(s, o.calls, now, ids, s')
    ensures s'.Ok() && s'.latest <= now
    ensures NoIncoming(System(o.next, s', linked)) || exists p :: OneIncoming(System(o.next, s', linked), p)
  {
    hide SlotsAllocated, DroppedFirst, IncomingResult, OneIncoming;
    if |o.calls| == 1 && o.calls[0].CallIncoming? {
      IncomingCallExplained(b, s, o, now, ids, s', linked);
    } else if |o.calls| > 0 && o.calls[0].CallReport? {
      ReportedCallsExplained(b, s, o, now, ids, s', linked);
    } else if |o.calls| == 1 {
      DroppedExplained(s, o.calls[0].peer, now, ids, s');
    }
  }

  lemma IncomingCallExplained(b: B.Behaviour, s: State, o: B.Outcome, now: nat, ids: seq<PeerId>, s': State, linked: set<PeerId>)
    requires s.Ok() && s.queue == [] && s.latest <= now && s.peers.ConnectedPeers() == b.WantedPeers()
    requires Accounted(b, o) && |o.calls| == 1 && o.calls[0].CallIncoming? && CallsMade(s, o.calls, now, ids, s')
    ensures s'.Ok() && s'.latest <= now && OneIncoming(System(o.next, s', linked), o.calls[0].peer)
  {
    hide IncomingResult;
    var p := o.calls[0].peer;
    assert s.peers.Connected(p) <==> p in b.WantedPeers();
    IncomingExplained(s, p, b.nextIndex, now);
  }

  lemma {:induction false} ReportedCallsExplained(b: B.Behaviour, s: State, o: B.Outcome, now: nat, ids: seq<PeerId>, s': State, linked: set<PeerId>)
    requires s.Ok() && s.queue == [] && s.latest <= now && s.peers.ConnectedPeers() == b.WantedPeers()
    requires Accounted(b, o) && |o.calls| > 0 && o.calls[0].CallReport? && CallsMade(s, o.calls, now, ids, s')
    ensures s'.Ok() && s'.latest <= now && NoIncoming(System(o.next, s', linked))
  {
    hide SlotsAllocated, DroppedFirst, IncomingResult;
    var t := s.(rx := s.rx + [ReportPeer(o.calls[0].peer, I32_MIN)]);
    assert CallsMade(t, o.calls[1..], now, ids, s');
    if |o.calls| == 2 {
      assert o.calls[1..] == [o.calls[1]];
      DroppedExplained(t, o.calls[1].peer, now, ids, s');
    } else {
      assert o.calls[1..] == [];
    }
  }

  lemma ConnectHandled(b: B.Behaviour, linked: set<PeerId>, p: PeerId, now: nat)
    requires Tracks(b, linked) && NoneIncoming(b) && !b.IsWanted(p)
    ensures var next := B.PsmConnect(b, p, now);
            Tracks(next, linked) && NoneIncoming(next) && next.WantedPeers() == b.WantedPeers() + {p}
  {
  }

  lemma DropHandled(b: B.Behaviour, linked: set<PeerId>, p: PeerId)
    requires Tracks(b, linked) && NoneIncoming(b) && b.IsWanted(p)
    ensures var next := B.PsmDrop(b, p);
            Tracks(next, linked) && NoneIncoming(next) && next.WantedPeers() == b.WantedPeers() - {p}
  {
  }

  lemma AnswerHandled(sys: System, p: PeerId, now: nat)
    requires Tracks(sys.b, sys.linked) && OneIncoming(sys, p)
    ensures var o := MessageHandled(sys.b, sys.psm.queue[0], now);
            && o.calls == [] && Tracks(o.next, sys.linked) && NoneIncoming(o.next)
            && o.next.WantedPeers() == sys.psm.peers.ConnectedPeers()
  {
    var o := MessageHandled(sys.b, sys.psm.queue[0], now);
    assert o.next.WantedPeers() == if sys.psm.queue[0].Accept? then sys.b.WantedPeers() + {p} else sys.b.WantedPeers();
  }

  lemma MessageStep(sys: System, now: nat, ids: seq<PeerId>, sys': System)
    requires Inv(sys) && SystemNext(sys, PollMessage, now, ids, sys')
    ensures Inv(sys')
  {
    if NoIncoming(sys) {
      var m := sys.psm.queue[0];
      if m.Connect? {
        ConnectHandled(sys.b, sys.linked, m.peer, now);
      } else {
        DropHandled(sys.b, sys.linked, m.peer);
      }
    } else {
      var p :| OneIncoming(sys, p);
      AnswerHandled(sys, p, now);
    }
    assert NoIncoming(sys');
  }

  lemma {:induction false} DiscoveryKeepsConnections(peers: Peers, found: seq<PeerId>)
    requires peers.GroupsKnown()
    ensures DiscoveredAll(peers, found).ConnectedPeers() == peers.ConnectedPeers()
    ensures DiscoveredAll(peers, found).GroupsKnown() && DiscoveredAll(peers, found).priorityOnly == peers.priorityOnly
    decreases |found|
  {
    if found != [] {
      DiscoveryKeepsConnections(peers, found[..|found| - 1]);
    }
  }

  lemma DiscoveryStep(sys: System, found: seq<PeerId>, now: nat, ids: seq<PeerId>, sys': System)
    requires Inv(sys) && SystemNext(sys, ApiDiscovered(found), now, ids, sys')
    ensures Inv(sys')
  {
    if sys'.psm != sys.psm {
      DiscoveryKeepsConnections(sys.psm.peers, found);
      AllocationExplained(sys.psm.(peers := DiscoveredAll(sys.psm.peers, found)), now, ids, sys'.psm);
    }
    assert NoIncoming(sys');
  }

  lemma CallbackStep(sys: System, step: Step, now: nat, ids: seq<PeerId>, sys': System)
    requires Inv(sys) && SystemNext(sys, step, now, ids, sys')
    requires !step.HandleAction? && !step.PollAct? && !step.ApiDiscovered? && !step.PollMessage?
    ensures Inv(sys')
  {
    CallbackAccounted(sys, step, now);
    CallsExplained(sys.b, sys.psm, Callback(sys.b, step, now), now, ids, sys'.psm, sys'.linked);
  }

  lemma HandleStep(sys: System, action: Action, now: nat, ids: seq<PeerId>, sys': System)
    requires Inv(sys) && SystemNext(sys, HandleAction(action), now, ids, sys')
    ensures Inv(sys')
  {
    if NoIncoming(sys) {
      assert NoIncoming(sys');
    } else {
      var p :| OneIncoming(sys, p);
      assert OneIncoming(sys', p);
    }
  }

  lemma ActStep(sys: System, now: nat, ids: seq<PeerId>, sys': System)
    requires Inv(sys) && SystemNext(sys, PollAct, now, ids, sys')
    ensures Inv(sys')
  {
    hide Acted;
    ActionExplained(sys.psm, now, ids, sys'.psm);
    assert NoIncoming(sys');
  }

  /** Every step of the system keeps the invariant. */
  lemma StepKeepsInv(sys: System, step: Step, now: nat, ids: seq<PeerId>, sys': System)
    requires Inv(sys) && SystemNext(sys, step, now, ids, sys')
    ensures Inv(sys')
  {
    hide Acted, NoIncoming, OneIncoming, CallsMade, Callback, MessageHandled;
    match step
    case HandleAction(action) => HandleStep(sys, action, now, ids, sys');
    case PollAct => ActStep(sys, now, ids, sys');
    case ApiDiscovered(found) => DiscoveryStep(sys, found, now, ids, sys');
    case PollMessage => MessageStep(sys, now, ids, sys');
    case _ => CallbackStep(sys, step, now, ids, sys');
  }

  // ----- runs

  datatype Label = Label(step: Step, now: nat, ids: seq<PeerId>)

  /** A new behaviour with a newly configured manager. */
  ghost predicate Initial(sys: System) {
    sys.b == B.INITIAL && sys.linked == {} && Started(sys.psm)
  }

  ghost predicate IsRun(states: seq<System>, labels: seq<Label>) {
    && |states| == |labels| + 1
    && Initial(states[0])
    && forall i :: 0 <= i < |labels| ==> SystemNext(states[i], labels[i].step, labels[i].now, labels[i].ids, states[i + 1])
  }

  lemma {:induction false} RunKeepsInv(states: seq<System>, labels: seq<Label>, k: nat)
    requires IsRun(states, labels) && k <= |labels|
    ensures Inv(states[k])
    decreases k
  {
    if k == 0 {
      var s, now, ids :| Configured(s, now) && SlotsAllocated(s, now, ids, states[0].psm);
      AllocationExplained(s, now, ids, states[0].psm);
      assert B.INITIAL.WantedPeers() == {};
      assert NoIncoming(states[0]);
    } else {
      RunKeepsInv(states, labels, k - 1);
      StepKeepsInv(states[k - 1], labels[k - 1].step, labels[k - 1].now, labels[k - 1].ids, states[k]);
    }
  }

  /** In every run, at every point where the manager's queue is drained, behaviour and manager agree about every
      peer, no peer is poisoned, and the connected peers are exactly those the swarm has a connection with. */
  lemma AgreementInEveryRun(states: seq<System>, labels: seq<Label>, k: nat)
    requires IsRun(states, labels) && k <= |labels| && states[k].psm.queue == []
    ensures Agreement(states[k]) && Tracks(states[k].b, states[k].linked)
  {
    RunKeepsInv(states, labels, k);
    QuiescentAgreement(states[k]);
  }
}
