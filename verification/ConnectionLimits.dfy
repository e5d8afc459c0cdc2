/** Where the agreement between connections stops: the inputs that break it, and exactly when they do. */
module ConnectionLimits {
  import opened Basics
  import opened PeerTable
  import opened PeerBehaviour
  import opened HandlerModel
  import opened HandlerRuns
  import opened Connections
  import opened ConnectionRuns

  // ----- a lost connection and its entry in the incoming list

  /** The entry at `k` stands for the undecided connection with `p`: the last alive one.  Older ones may be alive too. */
  predicate StandsFor(b: Behaviour, p: PeerId, k: nat) {
    && p in b.peers && b.peers[p].Incoming?
    && k < |b.incoming| && IsEntry(b.incoming[k], p, true)
    && forall i :: k < i < |b.incoming| ==> !IsEntry(b.incoming[i], p, true)
  }

  /** When an undecided connection is lost its entry is closed, as the meaning of `alive` asks, if and only if no older
      entry of the same peer is still listed: the search for it does not skip the dead ones.  The peer then has no
      alive entry under the same condition. */
  lemma LostEntryIsClosed(b: Behaviour, p: PeerId, k: nat, ban: nat, now: nat)
    requires StandsFor(b, p, k)
    ensures var b' := InjectDisconnected(b, p, ban, now).next;
            && |b'.incoming| == |b.incoming|
            && (!b'.incoming[k].alive <==> forall i :: 0 <= i < k ==> b.incoming[i].peer != p)
            && (!HasAlive(b'.incoming, p) <==> forall i :: 0 <= i < k ==> b.incoming[i].peer != p)
  {
    var b' := InjectDisconnected(b, p, ban, now).next;
    var found := FindEntry(b.incoming, p, false);
    assert IsEntry(b.incoming[k], p, false);
    if found == Some(k) {
      assert forall i :: 0 <= i < k ==> !IsEntry(b.incoming[i], p, false);
      assert forall i :: 0 <= i < |b'.incoming| ==> !IsEntry(b'.incoming[i], p, true);
    } else {
      assert b.incoming[found.value].peer == p && found.value < k;
      assert IsEntry(b'.incoming[k], p, true);
    }
  }

  /** Connect, disconnect on request, lose, connect again, lose again, with no answer of the manager in between: the
      second entry stays alive, and accepting it makes no call, so the manager keeps counting the peer. */
  lemma StaleEntryExample()
    ensures var b1 := InjectConnected(INITIAL, 7, Listener).next;
            var b2 := InjectDisconnected(DisconnectPeer(b1, 7, None, 0).next, 7, 0, 0).next;
            var b3 := InjectConnected(b2, 7, Listener).next;
            var b4 := InjectDisconnected(b3, 7, 0, 0).next;
            7 !in b4.peers && HasAlive(b4.incoming, 7) && PsmAccept(b4, 1).calls == []
  {
    var b1 := InjectConnected(INITIAL, 7, Listener).next;
    assert b1.incoming == [IncomingPeer(7, true, 0)];
    var b1' := DisconnectPeer(b1, 7, None, 0).next;
    assert b1'.incoming == [IncomingPeer(7, false, 0)] && b1'.At(7) == Some(Disabled(Listener, false, None));
    var b2 := InjectDisconnected(b1', 7, 0, 0).next;
    assert b2.incoming == [IncomingPeer(7, false, 0)] && b2.At(7) == None;
    var b3 := InjectConnected(b2, 7, Listener).next;
    assert b3.incoming == [IncomingPeer(7, false, 0), IncomingPeer(7, true, 1)] && b3.At(7) == Some(Incoming(Listener));
    var b4 := InjectDisconnected(b3, 7, 0, 0).next;
    assert FindEntry(b3.incoming, 7, false) == Some(0);
    assert b4.incoming == b3.incoming && IsEntry(b4.incoming[1], 7, true);
    assert FindIndex(b4.incoming, 1) == Some(1);
  }

  // ----- a command that outlives its connection

  ghost predicate StepAt(n: Net, act: Act, now: nat, n': Net) {
    (forall p :: p in n.links ==> Ok(n.links[p].h)) && Allowed(n, act, now) && Next(n, act, now, n')
  }

  ghost predicate StepTo(n: Net, act: Act, n': Net) { StepAt(n, act, 0, n') }

  ghost predicate OneStep(n: Net, n': Net) { exists act, now :: StepAt(n, act, now, n') }

  ghost predicate IsPath(ns: seq<Net>, n: Net, n': Net) {
    && |ns| > 0 && ns[0] == n && ns[|ns| - 1] == n'
    && forall i :: 0 <= i < |ns| - 1 ==> OneStep(ns[i], ns[i + 1])
  }

  ghost predicate Reaches(n: Net, n': Net) { exists ns :: IsPath(ns, n, n') }

  lemma ReachesStep(n: Net, act: Act, m: Net, n': Net)
    requires StepTo(n, act, m) && Reaches(m, n')
    ensures Reaches(n, n')
  {
    var ns :| IsPath(ns, m, n');
    assert OneStep(n, m);
    var all := [n] + ns;
    forall i | 0 <= i < |all| - 1 ensures OneStep(all[i], all[i + 1]) {
      assert i > 0 ==> all[i] == ns[i - 1] && all[i + 1] == ns[i - 1 + 1];
    }
    assert IsPath(all, n, n');
  }

  lemma ReachesHere(n: Net)
    ensures Reaches(n, n)
  {
    assert IsPath([n], n, n);
  }

  /** The connection with `p` is undecided, its handler has reported nothing, and `p` is known to be closed. */
  predicate Waiting(n: Net, p: PeerId) {
    && (forall q :: q in n.links ==> Ok(n.links[q].h))
    && n.delivered <= |n.b.events|
    && n.b.At(p).Some? && n.b.At(p).value.Incoming?
    && p in n.links && n.links[p].channel == [] && n.links[p].h.queue == []
    && Told(n.b.events, p) == Some(false)
  }

  predicate Dormant(st: State) { st == Init([]) || st == Closing([], false) }

  /** A message from a peer that was never opened. */
  predicate Misled(n: Net, p: PeerId) { Told(n.b.events, p) == None }

  predicate IsPoisoned(n: Net, p: PeerId) { p in n.b.peers && n.b.peers[p].Poisoned? }

  /** The handler of an undecided connection opens. */
  lemma OpenedMisleads(n: Net, p: PeerId) returns (n': Net, poisoned: Net)
    requires Waiting(n, p) && n.links[p].h.state.Opening?
    ensures Reaches(n, n') && Misled(n', p)
    ensures Reaches(n, poisoned) && IsPoisoned(poisoned, p)
  {
    var s := Substream(0, false, []);
    var l := n.links[p];
    var l1 := l.(h := OnNegotiated(l.h, s));
    var n1 := WithLink(n, p, l1);
    assert StepTo(n, Negotiate(p, s), n1);
    var n2 := FirstPoll(n1, p, s);
    hide StepTo, Told;
    var n3 := MessagePoll(n2, p, s);
    n' := HeardTooEarly(n3, p);
    ReachesStep(n2, PollHandler(p, Answers([Received("m")], [], false)), n3, n');
    ReachesStep(n1, PollHandler(p, Answers([NotReady], [], false)), n2, n');
    ReachesStep(n, Negotiate(p, s), n1, n');
    var n4 := EndPoll(n2, p, s);
    poisoned := ClosedTooEarly(n4, p);
    ReachesStep(n2, PollHandler(p, Answers([Ended], [], false)), n4, poisoned);
    ReachesStep(n1, PollHandler(p, Answers([NotReady], [], false)), n2, poisoned);
    ReachesStep(n, Negotiate(p, s), n1, poisoned);
  }

  /** The handler has opened; `reports` is on its way. */
  predicate OpenedWith(n: Net, p: PeerId, s: Substream, queue: seq<Output>, reports: seq<HandlerOut>) {
    && (forall q :: q in n.links ==> Ok(n.links[q].h))
    && n.b.At(p).Some? && n.b.At(p).value.Incoming?
    && p in n.links && n.links[p].channel == reports && n.links[p].h.queue == queue
    && n.links[p].h.state == Normal([s], [])
    && Told(n.b.events, p) == Some(false)
  }

  lemma FirstPoll(n: Net, p: PeerId, s: Substream) returns (n': Net)
    requires OpenedWith(n, p, s, [Custom(CustomProtocolOpen)], [])
    ensures StepTo(n, PollHandler(p, Answers([NotReady], [], false)), n') && OpenedWith(n', p, s, [], [CustomProtocolOpen])
  {
    var l := n.links[p];
    var h := l.h.(queue := []);
    assert HandlerPolled(l.h, Answers([NotReady], [], false), h, Ready(Custom(CustomProtocolOpen)));
    n' := WithLink(n, p, AfterPoll(l, h, Ready(Custom(CustomProtocolOpen))));
  }

  lemma MessagePoll(n: Net, p: PeerId, s: Substream) returns (n': Net)
    requires OpenedWith(n, p, s, [], [CustomProtocolOpen])
    ensures StepTo(n, PollHandler(p, Answers([Received("m")], [], false)), n')
    ensures ReportsUnderWay(n', p, [CustomProtocolOpen, CustomMessage("m")]) && Told(n'.b.events, p) == Some(false)
  {
    hide Told, HandlerPolled, StepTo;
    var l := n.links[p];
    MessagePolled(l.h, s);
    PollIsStep(n, p, Answers([Received("m")], [], false), l.h, Ready(Custom(CustomMessage("m"))));
    n' := WithLink(n, p, AfterPoll(l, l.h, Ready(Custom(CustomMessage("m")))));
  }

  lemma MessagePolled(h: Handler, s: Substream)
    requires h.state == Normal([s], []) && h.queue == []
    ensures HandlerPolled(h, Answers([Received("m")], [], false), h, Ready(Custom(CustomMessage("m"))))
  {
    hide NormalPolled;
    MessageOfOnly(s);
  }

  lemma MessageOfOnly(s: Substream)
    ensures NormalPolled([s], [], [Received("m")], Normal([s], []), [Custom(CustomMessage("m"))])
  {
    assert LastStop([Received("m")]) == 0;
    assert [s][..1] == [s] && [s][1..] == [] && [Received("m")][1..] == [];
    assert EndedOnes([s][1..], [Received("m")][1..]) == [] && Kept([s][1..], [Received("m")][1..]) == [];
  }

  /** The only substream ends, so the handler reports Closed. */
  lemma EndPoll(n: Net, p: PeerId, s: Substream) returns (n': Net)
    requires OpenedWith(n, p, s, [], [CustomProtocolOpen])
    ensures StepTo(n, PollHandler(p, Answers([Ended], [], false)), n')
    ensures ReportsUnderWay(n', p, [CustomProtocolOpen, CustomProtocolClosed])
  {
    hide Told, HandlerPolled, StepTo;
    var l := n.links[p];
    var h := l.h.(state := Closing([s], true));
    EndPolled(l.h, s);
    PollIsStep(n, p, Answers([Ended], [], false), h, Ready(Custom(CustomProtocolClosed)));
    n' := WithLink(n, p, AfterPoll(l, h, Ready(Custom(CustomProtocolClosed))));
  }

  lemma PollIsStep(n: Net, p: PeerId, a: Answers, h: Handler, r: PollResult)
    requires (forall q :: q in n.links ==> Ok(n.links[q].h)) && p in n.links && Fits(n.links[p].h.state, a)
    requires HandlerPolled(n.links[p].h, a, h, r)
    ensures StepTo(n, PollHandler(p, a), WithLink(n, p, AfterPoll(n.links[p], h, r)))
  {
    hide HandlerPolled;
  }

  lemma EndPolled(h: Handler, s: Substream)
    requires h.state == Normal([s], []) && h.queue == []
    ensures HandlerPolled(h, Answers([Ended], [], false), h.(state := Closing([s], true)), Ready(Custom(CustomProtocolClosed)))
  {
    hide NormalPolled;
    EndOfOnly(s);
  }

  lemma EndOfOnly(s: Substream)
    ensures NormalPolled([s], [], [Ended], Closing([s], true), [Custom(CustomProtocolClosed)])
  {
    assert LastStop([Ended]) == -1;
    assert [s][1..] == [] && [Ended][1..] == [];
    assert Kept([s], [Ended]) == [] + Kept([], []) == [];
    assert EndedOnes([s], [Ended]) == EndedOnes([], []) + [s] == [s];
    assert [s][0..] == [s] && [Ended][0..] == [Ended];
  }

  /** The connection with `p` is undecided, and these reports are on their way. */
  predicate ReportsUnderWay(n: Net, p: PeerId, reports: seq<HandlerOut>) {
    && (forall q :: q in n.links ==> Ok(n.links[q].h))
    && n.b.At(p).Some? && n.b.At(p).value.Incoming?
    && p in n.links && n.links[p].channel == reports
  }

  /** While the connection is undecided, an Open is ignored. */
  lemma OpenIgnored(n: Net, p: PeerId, last: HandlerOut) returns (n': Net)
    requires ReportsUnderWay(n, p, [CustomProtocolOpen, last])
    ensures StepTo(n, Hear(p), n') && ReportsUnderWay(n', p, [last]) && n'.b == n.b
  {
    assert n.links[p].channel[1..] == [last];
    n' := WithLink(n, p, n.links[p].(channel := [last]));
  }

  lemma ClosedPoisons(n: Net, p: PeerId) returns (n': Net)
    requires ReportsUnderWay(n, p, [CustomProtocolClosed])
    ensures StepTo(n, Hear(p), n') && IsPoisoned(n', p)
  {
    assert n.links[p].channel[1..] == [];
    n' := WithLink(n, p, n.links[p].(channel := [])).(b := InjectNodeEvent(n.b, p, CustomProtocolClosed, 0).next);
  }

  lemma MessageMisleads(n: Net, p: PeerId) returns (n': Net)
    requires ReportsUnderWay(n, p, [CustomMessage("m")]) && Told(n.b.events, p) == Some(false)
    ensures StepTo(n, Hear(p), n') && Misled(n', p)
  {
    hide Told;
    assert n.links[p].channel[1..] == [];
    n' := WithLink(n, p, n.links[p].(channel := [])).(b := InjectNodeEvent(n.b, p, CustomMessage("m"), 0).next);
    ToldOne(n.b.events, ExternalMessage(p, "m"), p);
  }

  /** The Open is ignored; the Closed poisons the state. */
  lemma ClosedTooEarly(n: Net, p: PeerId) returns (n': Net)
    requires ReportsUnderWay(n, p, [CustomProtocolOpen, CustomProtocolClosed])
    ensures Reaches(n, n') && IsPoisoned(n', p)
  {
    hide StepTo, ReportsUnderWay;
    var n1 := OpenIgnored(n, p, CustomProtocolClosed);
    n' := ClosedPoisons(n1, p);
    ReachesHere(n');
    ReachesStep(n1, Hear(p), n', n');
    ReachesStep(n, Hear(p), n1, n');
  }

  /** The Open is ignored; the message comes from a peer that is not open. */
  lemma HeardTooEarly(n: Net, p: PeerId) returns (n': Net)
    requires ReportsUnderWay(n, p, [CustomProtocolOpen, CustomMessage("m")]) && Told(n.b.events, p) == Some(false)
    ensures Reaches(n, n') && Misled(n', p)
  {
    hide StepTo, ReportsUnderWay, Told;
    var n1 := OpenIgnored(n, p, CustomMessage("m"));
    n' := MessageMisleads(n1, p);
    ReachesHere(n');
    ReachesStep(n1, Hear(p), n', n');
    ReachesStep(n, Hear(p), n1, n');
  }

  /** A handler that is to be enabled again and has nothing left to close asks for a substream. */
  lemma ReenabledOpens(n: Net, p: PeerId) returns (n': Net)
    requires Waiting(n, p) && n.links[p].h.state == Closing([], true)
    ensures StepTo(n, PollHandler(p, Answers([], [], false)), n') && Waiting(n', p) && n'.links[p].h.state.Opening?
  {
    hide Told;
    var l, a := n.links[p], Answers([], [], false);
    var h := l.h.(state := Opening);
    assert HandlerPolled(l.h, a, h, Ready(OutboundSubstreamRequest));
    n' := WithLink(n, p, AfterPoll(l, h, Ready(OutboundSubstreamRequest)));
  }

  /** The next command is an Enable. */
  lemma EnabledMisleads(n: Net, p: PeerId) returns (n': Net, poisoned: Net)
    requires Waiting(n, p) && Dormant(n.links[p].h.state) && n.links[p].h.endpoint.Listener?
    requires n.links[p].inbox != [] && n.links[p].inbox[0] == Enable
    ensures Reaches(n, n') && Misled(n', p)
    ensures Reaches(n, poisoned) && IsPoisoned(poisoned, p)
  {
    hide Told;
    var l := n.links[p];
    var n1 := WithLink(n, p, l.(inbox := l.inbox[1..], h := OnEnable(l.h)));
    assert StepTo(n, Obey(p), n1);
    hide StepTo;
    if l.h.state.Init? {
      n', poisoned := OpenedMisleads(n1, p);
    } else {
      var n2 := ReenabledOpens(n1, p);
      n', poisoned := OpenedMisleads(n2, p);
      ReachesStep(n1, PollHandler(p, Answers([], [], false)), n2, n');
      ReachesStep(n1, PollHandler(p, Answers([], [], false)), n2, poisoned);
    }
    ReachesStep(n, Obey(p), n1, n');
    ReachesStep(n, Obey(p), n1, poisoned);
  }

  /** An Enable is among the commands handed over. */
  lemma {:induction false} HandedMisleads(n: Net, p: PeerId) returns (n': Net, poisoned: Net)
    requires Waiting(n, p) && Dormant(n.links[p].h.state) && n.links[p].h.endpoint.Listener?
    requires Enable in n.links[p].inbox
    ensures Reaches(n, n') && Misled(n', p)
    ensures Reaches(n, poisoned) && IsPoisoned(poisoned, p)
    decreases |n.links[p].inbox|
  {
    var l := n.links[p];
    if l.inbox[0] == Enable {
      n', poisoned := EnabledMisleads(n, p);
    } else {
      var l1 := l.(inbox := l.inbox[1..], h := Obeyed(l.h, l.inbox[0]));
      assert Dormant(l1.h.state) by {
        assert ShutdownAll([]) == [];
      }
      var n1 := WithLink(n, p, l1);
      assert StepTo(n, Obey(p), n1);
      n', poisoned := HandedMisleads(n1, p);
      ReachesStep(n, Obey(p), n1, n');
      ReachesStep(n, Obey(p), n1, poisoned);
    }
  }

  /** An Enable for `p` waits at position `i` of the queue. */
  lemma {:induction false} QueuedMisleads(n: Net, p: PeerId, i: nat) returns (n': Net, poisoned: Net)
    requires Waiting(n, p) && Dormant(n.links[p].h.state) && n.links[p].h.endpoint.Listener?
    requires n.delivered <= i < |n.b.events| && n.b.events[i] == SendEvent(p, Enable)
    ensures Reaches(n, n') && Misled(n', p)
    ensures Reaches(n, poisoned) && IsPoisoned(poisoned, p)
    decreases i - n.delivered
  {
    var n1 := n.(delivered := n.delivered + 1, links := Handed(n.links, n.b.events[n.delivered]));
    assert StepTo(n, Deliver, n1);
    if i == n.delivered {
      n', poisoned := HandedMisleads(n1, p);
    } else {
      n', poisoned := QueuedMisleads(n1, p, i);
    }
    ReachesStep(n, Deliver, n1, n');
    ReachesStep(n, Deliver, n1, poisoned);
  }

  /** An inbound connection of a peer nobody asked for. */
  function Reconnected(n: Net, p: PeerId): Net {
    n.(b := InjectConnected(n.b, p, Listener).next, links := n.links[p := Link([], NewHandler(Listener), [], |n.b.events|)])
  }

  /** An Enable left over from an earlier connection lets the new connection speak before it is open. */
  lemma LeftoverMisleads(n: Net, p: PeerId) returns (n': Net, poisoned: Net)
    requires Fine(n) && p !in n.links && n.b.nextIndex < U64_MAX && !n.b.IsWanted(p)
    requires !NoEnableUnderWay(n, p)
    ensures Reaches(Reconnected(n, p), n') && Misled(n', p)
    ensures Reaches(Reconnected(n, p), poisoned) && IsPoisoned(poisoned, p)
  {
    assert PeerFine(n, p);
    LinksOk(n);
    assert n.b.events + [] == n.b.events;
    var i :| n.delivered <= i < |n.b.events| && n.b.events[i] == SendEvent(p, Enable);
    n', poisoned := QueuedMisleads(Reconnected(n, p), p, i);
  }

  lemma {:induction false} PathKeepsFine(ns: seq<Net>, k: nat)
    requires |ns| > 0 && Fine(ns[0]) && k < |ns|
    requires forall i :: 0 <= i < |ns| - 1 ==> OneStep(ns[i], ns[i + 1])
    ensures Fine(ns[k])
    decreases k
  {
    hide Fine;
    hide Next;
    if k > 0 {
      PathKeepsFine(ns, k - 1);
      assert OneStep(ns[k - 1], ns[k - 1 + 1]);
      var act, now :| StepAt(ns[k - 1], act, now, ns[k]);
      StepKeepsFine(ns[k - 1], act, now, ns[k]);
    }
  }

  /** An inbound connection nobody asked for never leads to a message from a closed peer, or to an Open or Closed out of
      turn, if and only if no Enable for an earlier connection with that peer is still on its way; and under the same
      condition it never leads to a poisoned state. */
  lemma LeftoverCondition(n: Net, p: PeerId)
    requires Fine(n) && p !in n.links && n.b.nextIndex < U64_MAX && n.b.IsUnasked(p, Listener)
    ensures NoEnableUnderWay(n, p) <==> forall n' :: Reaches(Reconnected(n, p), n') ==> !Misled(n', p)
    ensures NoEnableUnderWay(n, p) <==> forall n' :: Reaches(Reconnected(n, p), n') ==> !IsPoisoned(n', p)
  {
    hide PeerFine, Misled, IsPoisoned;
    if NoEnableUnderWay(n, p) {
      ConnectedKeepsFine(n, p, Listener, Reconnected(n, p));
      forall n' | Reaches(Reconnected(n, p), n') ensures !Misled(n', p) && !IsPoisoned(n', p) {
        var ns :| IsPath(ns, Reconnected(n, p), n');
        PathKeepsFine(ns, |ns| - 1);
        FineIsNotMisled(n', p);
      }
    } else {
      var n', poisoned := LeftoverMisleads(n, p);
    }
  }

  lemma FineIsNotMisled(n: Net, p: PeerId)
    requires Fine(n)
    ensures !Misled(n, p) && !IsPoisoned(n, p)
  {
    assert PeerFine(n, p);
  }

  // A peer is asked for, connects, and is lost.
  const ASKED := Net(Behaviour(map[7 := Requested], [], 0, [DialPeer(7)]), 0, map[])
  const MADE := Net(Behaviour(map[7 := Enabled(Dialer, false)], [], 0, [DialPeer(7), SendEvent(7, Enable)]), 0,
                    map[7 := Link([], NewHandler(Dialer), [], 1)])
  const GONE := Net(Behaviour(map[7 := Banned(0)], [], 0, [DialPeer(7), SendEvent(7, Enable)]), 0, map[])

  lemma Asks()
    ensures StepTo(START, WantConnect(7), ASKED)
  {
    assert PsmConnect(INITIAL, 7, 0) == ASKED.b;
  }

  lemma Connects()
    ensures StepTo(ASKED, PeerConnected(7, Dialer), MADE)
  {
    assert InjectConnected(ASKED.b, 7, Dialer).next.peers == MADE.b.peers;
    assert InjectConnected(ASKED.b, 7, Dialer).next == MADE.b;
    assert ASKED.links[7 := Link([], NewHandler(Dialer), [], 1)] == MADE.links;
  }

  lemma Loses()
    ensures StepTo(MADE, PeerLost(7, 0), GONE)
  {
    assert InjectDisconnected(MADE.b, 7, 0, 0).next.peers == GONE.b.peers;
    assert InjectDisconnected(MADE.b, 7, 0, 0).next == GONE.b;
    assert MADE.links - {7} == GONE.links;
  }

  /** Such a leftover does arise: a peer is dialled, connects, and is lost before its Enable was handed over. */
  lemma LeftoverArises()
    ensures Reaches(START, GONE) && 7 !in GONE.links && GONE.b.IsUnasked(7, Listener) && !NoEnableUnderWay(GONE, 7)
  {
    hide StepTo;
    Asks();
    Connects();
    Loses();
    ReachesHere(GONE);
    ReachesStep(MADE, PeerLost(7, 0), GONE, GONE);
    ReachesStep(ASKED, PeerConnected(7, Dialer), MADE, GONE);
    ReachesStep(START, WantConnect(7), ASKED, GONE);
    assert GONE.b.events[1] == SendEvent(7, Enable);
  }
}
