/** The mutable network behaviour, proved against the callbacks of module `PeerBehaviour`.  Its `Poll` drains the
    peer set manager, fires timers and hands out one event. */
module CustomProto {
  import opened Reputation
  import opened Basics
  import opened PeerTable
  import opened PeerBehaviour
  import PM = PeersetModel
  import opened PeersetManager
  import opened PeersetAgreement

  /** The steps that drain the manager: let it act, or carry out a message. */
  predicate DrainStep(step: Step) { step.PollAct? || step.PollMessage? }

  ghost predicate DrainsTo(sys: System, now: nat, n: nat, sys': System)
    decreases n
  {
    if n == 0 then sys' == sys
    else exists mid :: DrainsTo(sys, now, n - 1, mid) && OneDrainStep(mid, now, sys')
  }

  ghost predicate OneDrainStep(sys: System, now: nat, sys': System) {
    exists step, ids :: DrainStep(step) && SystemNext(sys, step, now, ids, sys')
  }

  /** `sys'` is reached from `sys` by draining steps. */
  ghost predicate Drained(sys: System, now: nat, sys': System) { exists n: nat :: DrainsTo(sys, now, n, sys') }

  lemma {:induction false} DrainedStep(sys: System, now: nat, mid: System, step: Step, ids: seq<PeerId>, sys': System)
    requires Drained(sys, now, mid) && DrainStep(step) && SystemNext(mid, step, now, ids, sys')
    ensures Drained(sys, now, sys')
  {
    hide SystemNext;
    var n: nat :| DrainsTo(sys, now, n, mid);
    assert OneDrainStep(mid, now, sys');
    assert DrainsTo(sys, now, n + 1, sys');
  }

  lemma {:induction false} DrainKeepsInv(sys: System, now: nat, n: nat, sys': System)
    requires Inv(sys) && DrainsTo(sys, now, n, sys')
    ensures Inv(sys')
    decreases n
  {
    hide SystemNext, Inv;
    if n > 0 {
      var mid :| DrainsTo(sys, now, n - 1, mid) && OneDrainStep(mid, now, sys');
      DrainKeepsInv(sys, now, n - 1, mid);
      var step, ids :| DrainStep(step) && SystemNext(mid, step, now, ids, sys');
      StepKeepsInv(mid, step, now, ids, sys');
    }
  }

  /** The actions taken inside the manager are draining steps. */
  lemma {:induction false} DrainedActs(sys: System, now: nat, b: Behaviour, linked: set<PeerId>, trace: seq<PM.State>, k: nat)
    requires ActedAlong(trace, now) && k < |trace| && Drained(sys, now, System(b, trace[0], linked))
    ensures Drained(sys, now, System(b, trace[k], linked))
    decreases k
  {
    if k > 0 {
      DrainedActs(sys, now, b, linked, trace, k - 1);
      assert ActsTo(trace[k - 1], now, trace[k - 1 + 1]);
      var ids :| PM.Next(trace[k - 1], PM.Act, now, ids, trace[k]);
      DrainedStep(sys, now, System(b, trace[k - 1], linked), PollAct, ids, System(b, trace[k], linked));
    }
  }

  lemma DrainedNothing(sys: System, now: nat)
    ensures Drained(sys, now, sys)
  {
    assert DrainsTo(sys, now, 0, sys);
  }

  // ----- timers

  /** `p` waits for a deadline that has passed, and the executor has noticed. */
  predicate IsDue(b: Behaviour, now: nat, late: set<PeerId>, p: PeerId) {
    && p in b.peers && p !in late
    && (b.peers[p].PendingRequest? || b.peers[p].DisabledPendingEnable?) && b.peers[p].deadline <= now
  }

  /** What a peer becomes once its wait is over. */
  function Woken(st: PeerState): PeerState {
    match st
    case PendingRequest(_) => Requested
    case DisabledPendingEnable(point, open, _) => Enabled(point, open)
    case _ => st
  }

  /** The event asks for what a due peer has waited for: to be dialled, or to be enabled. */
  predicate IsWakeup(b: Behaviour, now: nat, late: set<PeerId>, e: Event) {
    match e
    case DialPeer(p) => IsDue(b, now, late, p) && b.peers[p].PendingRequest?
    case SendEvent(p, command) => command.Enable? && IsDue(b, now, late, p) && b.peers[p].DisabledPendingEnable?
    case _ => false
  }

  /** Every due peer moves on and nobody else does; each is dialled or enabled once, in any order. */
  ghost predicate TimersFired(b: Behaviour, now: nat, late: set<PeerId>, b': Behaviour) {
    && b'.incoming == b.incoming && b'.nextIndex == b.nextIndex && b'.peers.Keys == b.peers.Keys
    && (forall p :: p in b.peers ==> b'.peers[p] == if IsDue(b, now, late, p) then Woken(b.peers[p]) else b.peers[p])
    && b.events <= b'.events
    && forall e :: multiset(b'.events[|b.events|..])[e] == if IsWakeup(b, now, late, e) then 1 else 0
  }

  lemma NothingFired(b: Behaviour, now: nat, late: set<PeerId>)
    requires forall p :: p in b.peers ==> p in late
    ensures TimersFired(b, now, late, b)
  {
    assert b.events[|b.events|..] == [];
  }

  /** One more peer is looked at. */
  lemma TimerLookedAt(b: Behaviour, now: nat, late: set<PeerId>, todo: set<PeerId>, p: PeerId, b': Behaviour)
    requires p in todo && p in b.peers && TimersFired(b, now, late + todo, b')
    ensures TimersFired(b, now, late + (todo - {p}), if IsDue(b, now, late, p) then TimerFired(b', p) else b')
  {
    var less := late + (todo - {p});
    var after := if IsDue(b, now, late, p) then TimerFired(b', p) else b';
    forall q ensures IsDue(b, now, less, q) <==> IsDue(b, now, late + todo, q) || (q == p && IsDue(b, now, late, p)) {
    }
    if IsDue(b, now, late, p) {
      assert b'.peers[p] == b.peers[p];
      var e := after.events[|b'.events|];
      assert after.events[|b.events|..] == b'.events[|b.events|..] + [e];
      assert IsWakeup(b, now, less, e) && !IsWakeup(b, now, late + todo, e);
      assert forall e' :: e' != e ==> (IsWakeup(b, now, less, e') <==> IsWakeup(b, now, late + todo, e'));
    } else {
      assert forall e :: IsWakeup(b, now, less, e) <==> IsWakeup(b, now, late + todo, e);
    }
  }

  lemma TimersKeepInv(sys: System, now: nat, late: set<PeerId>, b': Behaviour)
    requires Inv(sys) && sys.psm.queue == [] && TimersFired(sys.b, now, late, b')
    ensures Inv(sys.(b := b')) && Agreement(sys.(b := b'))
  {
    var sys' := sys.(b := b');
    QuiescentAgreement(sys);
    assert NoIncoming(sys);
    assert b'.WantedPeers() == sys.b.WantedPeers();
    assert forall p :: b'.IsLinked(p) == sys.b.IsLinked(p);
    QuiescentAgreement(sys');
  }

  /** A poll that drains the manager and fires the timers restores agreement; handing out an event does not disturb it. */
  lemma PollSettles(sys: System, now: nat, drained: System, late: set<PeerId>, fired: Behaviour, events: seq<Event>)
    requires Inv(sys) && Drained(sys, now, drained) && drained.psm.queue == []
    requires TimersFired(drained.b, now, late, fired)
    ensures var sys' := drained.(b := fired.(events := events)); Inv(sys') && Agreement(sys')
  {
    hide TimersFired;
    var n: nat :| DrainsTo(sys, now, n, drained);
    DrainKeepsInv(sys, now, n, drained);
    TimersKeepInv(drained, now, late, fired);
    var sys' := drained.(b := fired.(events := events));
    assert sys'.b.WantedPeers() == fired.WantedPeers();
    assert NoIncoming(sys');
    QuiescentAgreement(sys');
  }

  lemma MessageTaken(sys: System, m: PM.Message, now: nat, ids: seq<PeerId>, sys': System)
    requires sys.psm.created <= sys.psm.latest <= now && sys.psm.queue != [] && m == sys.psm.queue[0]
    requires var o := MessageHandled(sys.b, m, now);
             sys'.b == o.next && CallsMade(sys.psm.(queue := sys.psm.queue[1..]), o.calls, now, ids, sys'.psm)
    requires sys'.linked == sys.linked
    ensures SystemNext(sys, PollMessage, now, ids, sys')
  {
    hide PM.Next, MessageHandled, CallsMade;
  }

  class CustomProto {
    const peerset: Peerset
    var peers: map<PeerId, PeerState>
    var incoming: seq<IncomingPeer>
    var nextIncomingIndex: nat
    var events: seq<Event>

    function View(): Behaviour
      reads this
    {
      Behaviour(peers, incoming, nextIncomingIndex, events)
    }

    /** The behaviour with its manager, as a system state. */
    function Sys(linked: set<PeerId>): System
      reads this, peerset, peerset.data
    {
      System(View(), peerset.View(), linked)
    }

    ghost predicate Valid(now: nat)
      reads this, peerset, peerset.data
    {
      peerset.Valid() && peerset.latestTimeUpdate <= now
    }

    /** The callback left the behaviour as `o` says and made its calls on the manager. */
    twostate predicate Did(o: Outcome, now: nat, ids: seq<PeerId>)
      reads this, peerset, peerset.data
      requires old(Valid(now))
    {
      && Valid(now)
      && View() == o.next
      && CallsMade(old(peerset.View()), o.calls, now, ids, peerset.View())
    }

    constructor (peerset: Peerset)
      requires peerset.Valid()
      ensures this.peerset == peerset && View() == INITIAL
    {
      this.peerset := peerset;
      peers, incoming, nextIncomingIndex, events := map[], [], 0, [];
    }

    /** Disconnects the peer; with `ban`, keeps it from being dialled for that long. */
    method DisconnectPeerInner(p: PeerId, ban: Option<nat>, now: nat) returns (ghost ids: seq<PeerId>)
      requires Valid(now)
      modifies this`peers, this`incoming, this`events, peerset, peerset.data
      ensures Did(DisconnectPeer(old(View()), p, ban, now), now, ids)
    {
      hide PM.Next, Peerset.Valid;
      ids := [];
      if p !in peers {
        return;
      }
      match peers[p]
      case DisabledPendingEnable(point, open, deadline) =>
        peers := peers[p := Poisoned];
        ids := peerset.Dropped(p, now);
        var until := if ban.Some? then Max(deadline, now + ban.value) else deadline;
        peers := peers[p := Disabled(point, open, Some(until))];
        assert peers == old(peers)[p := Disabled(point, open, Some(until))];
      case Enabled(point, open) =>
        peers := peers[p := Poisoned];
        ids := peerset.Dropped(p, now);
        events := events + [SendEvent(p, Disable)];
        peers := peers[p := Disabled(point, open, if ban.Some? then Some(now + ban.value) else None)];
        assert peers == old(peers)[p := Disabled(point, open, if ban.Some? then Some(now + ban.value) else None)];
      case Incoming(_) => DisconnectIncoming(p, ban, now);
      case _ =>
    }

    /** The connection is undecided: its entry is closed instead of telling the manager. */
    method DisconnectIncoming(p: PeerId, ban: Option<nat>, now: nat)
      requires p in peers && peers[p].Incoming?
      modifies this`peers, this`incoming, this`events
      ensures View() == DisconnectPeer(old(View()), p, ban, now).next
    {
      var point := peers[p].point;
      peers := peers[p := Poisoned];
      var entry := FindEntry(incoming, p, true);
      if entry.None? {
        return;
      }
      incoming := incoming[entry.value := incoming[entry.value].(alive := false)];
      events := events + [SendEvent(p, Disable)];
      peers := peers[p := Disabled(point, false, if ban.Some? then Some(now + ban.value) else None)];
    }

    method PeersetReportConnect(p: PeerId, now: nat)
      modifies this`peers, this`incoming, this`events
      ensures View() == PsmConnect(old(View()), p, now) && |incoming| == |old(incoming)|
    {
      if p !in peers {
        events := events + [DialPeer(p)];
        peers := peers[p := Requested];
        return;
      }
      match peers[p]
      case Banned(until) =>
        if until > now {
          peers := peers[p := PendingRequest(until)];
        } else {
          events := events + [DialPeer(p)];
          peers := peers[p := Requested];
        }
      case Disabled(point, open, until) =>
        if until.Some? && until.value > now {
          peers := peers[p := DisabledPendingEnable(point, open, until.value)];
        } else {
          events := events + [SendEvent(p, Enable)];
          peers := peers[p := Enabled(point, open)];
        }
      case Incoming(point) =>
        var entry := FindEntry(incoming, p, true);
        if entry.Some? {
          incoming := incoming[entry.value := incoming[entry.value].(alive := false)];
        }
        events := events + [SendEvent(p, Enable)];
        peers := peers[p := Enabled(point, false)];
      case _ =>
    }

    method PeersetReportDisconnect(p: PeerId)
      modifies this`peers, this`events
      ensures View() == PsmDrop(old(View()), p)
    {
      if p !in peers {
        return;
      }
      match peers[p]
      case DisabledPendingEnable(point, open, deadline) =>
        peers := peers[p := Disabled(point, open, Some(deadline))];
      case Enabled(point, open) =>
        events := events + [SendEvent(p, Disable)];
        peers := peers[p := Disabled(point, open, None)];
      case Requested =>
        peers := peers - {p};
      case PendingRequest(deadline) =>
        peers := peers[p := Banned(deadline)];
      case _ =>
    }

    method PeersetReportAccept(index: nat, now: nat) returns (ghost ids: seq<PeerId>)
      requires Valid(now)
      modifies this`peers, this`incoming, this`events, peerset, peerset.data
      ensures Did(PsmAccept(old(View()), index), now, ids)
      ensures peerset.rx == old(peerset.rx)
      ensures |incoming| < |old(incoming)| || (incoming == old(incoming) && peerset.View() == old(peerset.View()))
    {
      hide PM.Next, Peerset.Valid;
      ids := [];
      var pos := FindIndex(incoming, index);
      if pos.None? {
        return;
      }
      var entry := incoming[pos.value];
      incoming := incoming[..pos.value] + incoming[pos.value + 1..];
      if !entry.alive {
        ids := peerset.Dropped(entry.peer, now);
        return;
      }
      if entry.peer in peers && peers[entry.peer].Incoming? {
        events := events + [SendEvent(entry.peer, Enable)];
        peers := peers[entry.peer := Enabled(peers[entry.peer].point, false)];
      }
    }

    method PeersetReportReject(index: nat)
      modifies this`peers, this`incoming, this`events
      ensures View() == PsmReject(old(View()), index) && |incoming| <= |old(incoming)|
    {
      var pos := FindIndex(incoming, index);
      if pos.None? {
        return;
      }
      var entry := incoming[pos.value];
      incoming := incoming[..pos.value] + incoming[pos.value + 1..];
      if !entry.alive {
        return;
      }
      if entry.peer in peers && peers[entry.peer].Incoming? {
        events := events + [SendEvent(entry.peer, Disable)];
        peers := peers[entry.peer := Disabled(peers[entry.peer].point, false, None)];
      }
    }

    /** The swarm established a connection. */
    method Connected(p: PeerId, point: Endpoint, now: nat) returns (ghost ids: seq<PeerId>)
      requires Valid(now)
      modifies this, peerset, peerset.data
      ensures Did(InjectConnected(old(View()), p, point), now, ids)
    {
      hide PM.Next, Peerset.Valid;
      ids := [];
      var st := if p in peers then peers[p] else Poisoned;
      if st.Requested? || st.PendingRequest? {
        events := events + [SendEvent(p, Enable)];
        peers := peers[p := Enabled(point, false)];
      } else if (st.Poisoned? || st.Banned?) && point.Listener? {
        ConnectedInbound(p, now);
      } else if st.Poisoned? || st.Banned? {
        var until := if st.Banned? then Some(st.until) else None;
        events := events + [SendEvent(p, Disable)];
        peers := peers[p := Disabled(point, false, until)];
      }
    }

    /** The remote connected: the manager is asked, unless no index is left. */
    method ConnectedInbound(p: PeerId, now: nat)
      requires Valid(now) && (p in peers ==> peers[p].Poisoned? || peers[p].Banned?)
      modifies this, peerset, peerset.data
      ensures Did(InjectConnected(old(View()), p, Listener), now, [])
    {
      hide PM.IncomingResult, Peerset.Valid;
      if p !in peers {
        peers := peers[p := Poisoned];
      }
      var index := nextIncomingIndex;
      if nextIncomingIndex == U64_MAX {
        return;
      }
      nextIncomingIndex := nextIncomingIndex + 1;
      peerset.Incoming(p, index, now);
      incoming := incoming + [IncomingPeer(p, true, index)];
      peers := peers[p := Incoming(Listener)];
    }

    /** The swarm lost the connection. */
    method Disconnected(p: PeerId, ban: nat, now: nat) returns (ghost ids: seq<PeerId>)
      requires Valid(now)
      modifies this, peerset, peerset.data
      ensures Did(InjectDisconnected(old(View()), p, ban, now), now, ids)
    {
      hide PM.Next, Peerset.Valid;
      ids := [];
      if p !in peers {
        assert peers - {p} == peers;
        return;
      }
      var st := peers[p];
      peers := peers - {p};
      match st
      case Disabled(_, open, until) =>
        if until.Some? {
          peers := peers[p := Banned(until.value)];
        }
        events := events + ClosedIf(p, open);
      case DisabledPendingEnable(_, open, deadline) =>
        ids := peerset.Dropped(p, now);
        peers := peers[p := Banned(deadline)];
        events := events + ClosedIf(p, open);
      case Enabled(_, open) =>
        ids := peerset.Dropped(p, now);
        peers := peers[p := Banned(now + ban)];
        events := events + ClosedIf(p, open);
      case Incoming(_) =>
        var entry := FindEntry(incoming, p, false);
        if entry.Some? {
          incoming := incoming[entry.value := incoming[entry.value].(alive := false)];
        }
      case _ =>
    }

    method DialFailure(p: PeerId, now: nat) returns (ghost ids: seq<PeerId>)
      requires Valid(now)
      modifies this`peers, peerset, peerset.data
      ensures Did(InjectDialFailure(old(View()), p, now), now, ids)
    {
      hide PM.Next, Peerset.Valid;
      ids := [];
      if p in peers && (peers[p].Requested? || peers[p].PendingRequest?) {
        peers := peers[p := Banned(now + 5 * SECOND)];
        ids := peerset.Dropped(p, now);
      }
    }

    /** A report from the connection handler of `p`. */
    method NodeEvent(p: PeerId, out: HandlerOut, now: nat) returns (ghost ids: seq<PeerId>)
      requires Valid(now)
      modifies this, peerset, peerset.data
      ensures Did(InjectNodeEvent(old(View()), p, out, now), now, ids)
    {
      hide PM.Next, Peerset.Valid;
      ids := [];
      match out
      case CustomProtocolClosed =>
        ids := HandlerClosed(p, now);
      case CustomProtocolOpen =>
        if p in peers && (peers[p].Enabled? || peers[p].DisabledPendingEnable? || peers[p].Disabled?) && !peers[p].open {
          peers := peers[p := peers[p].WithOpen(true)];
          events := events + [ExternalOpen(p)];
        }
      case CustomMessage(message) =>
        events := events + [ExternalMessage(p, message)];
      case Clogged =>
        events := events + [ExternalClogged(p)];
      case ProtocolError(isSevere) =>
        if isSevere {
          ids := SevereError(p, now);
        }
    }

    method HandlerClosed(p: PeerId, now: nat) returns (ghost ids: seq<PeerId>)
      requires Valid(now)
      modifies this`peers, this`events, peerset, peerset.data
      ensures Did(InjectNodeEvent(old(View()), p, CustomProtocolClosed, now), now, ids)
    {
      hide PM.Next, Peerset.Valid;
      ids := [];
      if p !in peers {
        return;
      }
      events := events + [ExternalClosed(p)];
      var st := peers[p];
      peers := peers[p := Poisoned];
      match st
      case Enabled(point, open) =>
        ids := peerset.Dropped(p, now);
        events := events + [SendEvent(p, Disable)];
        peers := peers[p := Disabled(point, false, None)];
      case Disabled(point, open, until) =>
        peers := peers[p := Disabled(point, false, until)];
      case DisabledPendingEnable(point, open, deadline) =>
        peers := peers[p := DisabledPendingEnable(point, false, deadline)];
      case _ =>
    }

    method SevereError(p: PeerId, now: nat) returns (ghost ids: seq<PeerId>)
      requires Valid(now)
      modifies this`peers, this`incoming, this`events, peerset, peerset.data
      ensures Did(InjectNodeEvent(old(View()), p, ProtocolError(true), now), now, ids)
    {
      hide PM.Next, Peerset.Valid;
      ghost var before := peerset.View();
      peerset.ReportPeer(p, I32_MIN);
      ids := DisconnectPeerInner(p, Some(5 * SECOND), now);
      ghost var calls := DisconnectPeer(old(View()), p, Some(5 * SECOND), now).calls;
      assert ([CallReport(p)] + calls)[1..] == calls;
    }

    method SendMessage(p: PeerId, message: string)
      modifies this`events
      ensures View() == SendPacket(old(View()), p, message)
    {
      if View().IsOpen(p) {
        events := events + [SendEvent(p, SendCustomMessage(message))];
      }
    }

    /** Carries out one message of the manager. */
    method HandleMessage(m: PM.Message, now: nat) returns (ghost ids: seq<PeerId>)
      requires Valid(now)
      modifies this`peers, this`incoming, this`events, peerset, peerset.data
      ensures Did(MessageHandled(old(View()), m, now), now, ids)
      ensures peerset.rx == old(peerset.rx)
      ensures |incoming| < |old(incoming)| || (|incoming| == |old(incoming)| && peerset.View() == old(peerset.View()))
    {
      hide PM.Next, Peerset.Valid, PsmConnect, PsmDrop, PsmAccept, PsmReject;
      ids := [];
      match m
      case Connect(p) => PeersetReportConnect(p, now);
      case Drop(p) => PeersetReportDisconnect(p);
      case Accept(index) => ids := PeersetReportAccept(index, now);
      case Reject(index) => PeersetReportReject(index);
    }

    /** Follows the manager's instructions until it has none left. */
    method DrainPeerset(now: nat, ghost linked: set<PeerId>)
      requires Valid(now)
      modifies this`peers, this`incoming, this`events, peerset, peerset.data
      ensures Valid(now) && Drained(old(Sys(linked)), now, Sys(linked))
      ensures peerset.View().queue == [] && peerset.View().rx == []
    {
      hide PM.Next, Peerset.Valid, MessageHandled, SystemNext, Drained;
      DrainedNothing(Sys(linked), now);
      while true
        invariant Valid(now) && Drained(old(Sys(linked)), now, Sys(linked))
        decreases |peerset.rx|, |incoming|, |peerset.messageQueue|
      {
        label before:
        var m, trace := peerset.PollNext(now);
        DrainedActs(old(Sys(linked)), now, View(), linked, trace, |trace| - 1);
        if m.None? {
          return;
        }
        label popped:
        ghost var mid := System(View(), trace[|trace| - 1], linked);
        ghost var ids := HandleMessage(m.value, now);
        MessageTaken(mid, m.value, now, ids, Sys(linked));
        DrainedStep(old(Sys(linked)), now, mid, PollMessage, ids, Sys(linked));
      }
    }

    /** Dials or enables the peers whose ban has run out.  `late` are timers the executor has not noticed yet. */
    method FireTimers(now: nat, late: set<PeerId>)
      modifies this`peers, this`events
      ensures TimersFired(old(View()), now, late, View())
    {
      hide TimersFired;
      ghost var before := View();
      var todo := peers.Keys;
      NothingFired(before, now, late + todo);
      while todo != {}
        invariant todo <= before.peers.Keys == peers.Keys
        invariant forall p :: p in todo ==> peers[p] == before.peers[p]
        invariant TimersFired(before, now, late + todo, View())
        decreases todo
      {
        var p :| p in todo;
        TimerLookedAt(before, now, late, todo, p, View());
        if peers[p].PendingRequest? && peers[p].deadline <= now && p !in late {
          events := events + [DialPeer(p)];
          peers := peers[p := Requested];
        } else if peers[p].DisabledPendingEnable? && peers[p].deadline <= now && p !in late {
          events := events + [SendEvent(p, Enable)];
          peers := peers[p := Enabled(peers[p].point, peers[p].open)];
        }
        todo := todo - {p};
      }
      assert late + todo == late;
    }

    /** Drains the manager, fires due timers, and hands out the oldest event.  If the two sides were in step before,
        they agree about every peer afterwards. */
    method Poll(now: nat, late: set<PeerId>, ghost linked: set<PeerId>)
      returns (r: Option<Event>, ghost drained: System, ghost fired: Behaviour)
      requires Valid(now)
      modifies this`peers, this`incoming, this`events, peerset, peerset.data
      ensures Valid(now) && Drained(old(Sys(linked)), now, drained) && drained.psm.queue == [] && drained.psm.rx == []
      ensures TimersFired(drained.b, now, late, fired)
      ensures Sys(linked) == drained.(b := fired.(events := events))
      ensures match r
              case None => fired.events == [] == events
              case Some(e) => fired.events == [e] + events
      ensures Inv(old(Sys(linked))) ==> Inv(Sys(linked)) && Agreement(Sys(linked))
    {
      hide PM.Next, Peerset.Valid, Drained, Inv, Agreement, TimersFired;
      DrainPeerset(now, linked);
      drained := Sys(linked);
      FireTimers(now, late);
      fired := View();
      if events != [] {
        r := Some(events[0]);
        events := events[1..];
      } else {
        r := None;
      }
      if Inv(old(Sys(linked))) {
        PollSettles(old(Sys(linked)), now, drained, late, fired, events);
      }
    }
  }
}
