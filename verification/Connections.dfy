/** The behaviour and its connection handlers, joined by first-in first-out channels.  The peer set manager, the
    remote peers, the timers and the scheduling are arbitrary: nothing says that a queue is emptied before the next
    callback. */
module Connections {
  import opened Basics
  import opened PeerTable
  import opened PeerBehaviour
  import opened HandlerModel
  import opened HandlerRuns

  /** A connection: commands on their way to the handler, the handler, its reports on their way back.  `start` is the
      number of events queued before the connection existed. */
  datatype Link = Link(inbox: seq<Command>, h: Handler, channel: seq<HandlerOut>, start: nat)
  {
    /** Every report still to be heard, in order. */
    function Unheard(): seq<HandlerOut> { channel + Reports(h.queue) }
  }

  /** `b.events` is everything ever queued; the first `delivered` of them have been handed over. */
  datatype Net = Net(b: Behaviour, delivered: nat, links: map<PeerId, Link>)

  function Reports(queue: seq<Output>): seq<HandlerOut> {
    if queue == [] then [] else (if queue[0].Custom? then [queue[0].out] else []) + Reports(queue[1..])
  }

  const START := Net(INITIAL, 0, map[])

  datatype Act =
    | PeerConnected(p: PeerId, point: Endpoint)
    | PeerLost(p: PeerId, ban: nat)
    | CannotDial(p: PeerId)
    | WantConnect(p: PeerId)
    | WantDrop(p: PeerId)
    | Accepted(index: nat)
    | Rejected(index: nat)
    | AskDisconnect(p: PeerId)
    | AskSend(p: PeerId, message: string)
    | TimerEnds(p: PeerId)
    | Deliver
    | Obey(p: PeerId)
    | Negotiate(p: PeerId, s: Substream)
    | FailUpgrade(p: PeerId, isSevere: bool)
    | PollHandler(p: PeerId, a: Answers)
    | Hear(p: PeerId)

  /** What a callback that leaves the connections alone does to the behaviour. */
  function Turned(b: Behaviour, act: Act, now: nat): Behaviour {
    match act
    case CannotDial(p) => InjectDialFailure(b, p, now).next
    case WantConnect(p) => PsmConnect(b, p, now)
    case WantDrop(p) => PsmDrop(b, p)
    case Accepted(index) => PsmAccept(b, index).next
    case Rejected(index) => PsmReject(b, index)
    case AskDisconnect(p) => DisconnectPeer(b, p, None, now).next
    case AskSend(p, message) => SendPacket(b, p, message)
    case TimerEnds(p) => TimerFired(b, p)
    case _ => b
  }

  predicate IsTurn(act: Act) {
    act.CannotDial? || act.WantConnect? || act.WantDrop? || act.Accepted? || act.Rejected? || act.AskDisconnect?
    || act.AskSend? || act.TimerEnds?
  }

  function Obeyed(h: Handler, c: Command): Handler
    requires Ok(h)
  {
    match c
    case Enable => OnEnable(h)
    case Disable => OnDisable(h)
    case SendCustomMessage(message) => OnSend(h, message)
  }

  /** No Enable meant for an earlier connection with `p` is still on its way. */
  predicate NoEnableUnderWay(n: Net, p: PeerId) {
    forall i :: n.delivered <= i < |n.b.events| ==> n.b.events[i] != SendEvent(p, Enable)
  }

  /** What the environment keeps to: connects and disconnects alternate, timers are not early; and when a connection comes
      up that nobody asked for, an index is left for it and no Enable for an earlier connection is on its way. */
  predicate Allowed(n: Net, act: Act, now: nat) {
    match act
    case PeerConnected(p, point) =>
      p !in n.links && (n.b.IsUnasked(p, point) ==> n.b.nextIndex < U64_MAX && NoEnableUnderWay(n, p))
    case PeerLost(p, _) => p in n.links
    case TimerEnds(p) => p in n.b.peers && n.b.peers[p].Deadline().Some? ==> n.b.peers[p].Deadline().value <= now
    case _ => true
  }

  ghost predicate Next(n: Net, act: Act, now: nat, n': Net)
    requires forall p :: p in n.links ==> Ok(n.links[p].h)
  {
    match act
    case PeerConnected(p, point) =>
      && p !in n.links
      && n' == n.(b := InjectConnected(n.b, p, point).next, links := n.links[p := Link([], NewHandler(point), [], |n.b.events|)])
    case PeerLost(p, ban) =>
      && p in n.links
      && n' == n.(b := InjectDisconnected(n.b, p, ban, now).next, links := n.links - {p})
    case Deliver =>
      && n.delivered < |n.b.events|
      && n' == n.(delivered := n.delivered + 1, links := Handed(n.links, n.b.events[n.delivered]))
    case Obey(p) =>
      && p in n.links && n.links[p].inbox != []
      && n' == WithLink(n, p, n.links[p].(inbox := n.links[p].inbox[1..], h := Obeyed(n.links[p].h, n.links[p].inbox[0])))
    case Negotiate(p, s) =>
      && p in n.links
      && n' == WithLink(n, p, n.links[p].(h := OnNegotiated(n.links[p].h, s)))
    case FailUpgrade(p, isSevere) =>
      && p in n.links
      && n' == WithLink(n, p, n.links[p].(h := OnUpgradeError(n.links[p].h, isSevere)))
    case PollHandler(p, a) =>
      && p in n.links && Fits(n.links[p].h.state, a)
      && exists h, r :: HandlerPolled(n.links[p].h, a, h, r) && n' == WithLink(n, p, AfterPoll(n.links[p], h, r))
    case Hear(p) =>
      && p in n.links && n.links[p].channel != []
      && n' == WithLink(n, p, n.links[p].(channel := n.links[p].channel[1..]))
               .(b := InjectNodeEvent(n.b, p, n.links[p].channel[0], now).next)
    case _ => n' == n.(b := Turned(n.b, act, now))
  }

  function WithLink(n: Net, p: PeerId, l: Link): Net { n.(links := n.links[p := l]) }

  function AfterPoll(l: Link, h: Handler, r: PollResult): Link {
    l.(h := h, channel := l.channel + if r.Ready? && r.output.Custom? then [r.output.out] else [])
  }

  /** A command for a connection that no longer exists is dropped. */
  function Handed(links: map<PeerId, Link>, e: Event): map<PeerId, Link> {
    if e.SendEvent? && e.peer in links then links[e.peer := links[e.peer].(inbox := links[e.peer].inbox + [e.command])]
    else links
  }

  // ----- what must hold

  /** Whether a protocol is open after a report; None when the report does not fit. */
  function Heard(open: bool, out: HandlerOut): Option<bool> {
    match out
    case CustomProtocolOpen => if open then None else Some(true)
    case CustomProtocolClosed => if open then Some(false) else None
    case CustomMessage(_) => if open then Some(true) else None
    case Clogged => if open then Some(true) else None
    case ProtocolError(_) => Some(open)
  }

  function Follow(open: bool, outs: seq<HandlerOut>): Option<bool>
    decreases |outs|
  {
    if outs == [] then Some(open)
    else
      match Heard(open, outs[0])
      case None => None
      case Some(o) => Follow(o, outs[1..])
  }

  /** Whether the outside world has been told that `p` is open; None as soon as it was told something that does not fit:
      an Open for an open peer, or a Closed, a message or a congestion for a closed one. */
  function Told(events: seq<Event>, p: PeerId): Option<bool> {
    if events == [] then Some(false)
    else
      match Told(events[..|events| - 1], p)
      case None => None
      case Some(o) => ToldNext(o, events[|events| - 1], p)
  }

  function ToldNext(open: bool, e: Event, p: PeerId): Option<bool> {
    match e
    case ExternalOpen(q) => if q != p then Some(open) else if open then None else Some(true)
    case ExternalClosed(q) => if q != p then Some(open) else if open then Some(false) else None
    case ExternalMessage(q, _) => if q != p || open then Some(open) else None
    case ExternalClogged(q) => if q != p || open then Some(open) else None
    case _ => Some(open)
  }

  predicate IsSwitch(e: Event, p: PeerId) { e.SendEvent? && e.peer == p && !e.command.SendCustomMessage? }

  /** The last Enable or Disable sent to `p` since there were `start` events. */
  function Switched(events: seq<Event>, start: nat, p: PeerId): Option<Command> {
    if |events| <= start then None
    else if IsSwitch(events[|events| - 1], p) then Some(events[|events| - 1].command)
    else Switched(events[..|events| - 1], start, p)
  }

  /** The command a connection in this state was last sent. */
  function Expected(st: PeerState): Option<Command> {
    match st
    case Enabled(_, _) => Some(Enable)
    case Disabled(_, _, _) => Some(Disable)
    case DisabledPendingEnable(_, _, _) => Some(Disable)
    case _ => None
  }

  /** A connection the manager has not decided about: its handler was never enabled. */
  predicate Undecided(n: Net, p: PeerId)
    requires p in n.links
  {
    var l := n.links[p];
    && NoEnableUnderWay(n, p)
    && Enable !in l.inbox
    && (l.h.state.Init? || (l.h.state.Closing? && !l.h.state.reenable))
    && forall i :: 0 <= i < |l.Unheard()| ==> l.Unheard()[i].ProtocolError?
  }

  /** What the handler has reported and the behaviour has not heard yet fits what the behaviour knows. */
  predicate HandlerFits(open: bool, l: Link) {
    && Ok(l.h)
    && var o := Follow(open, l.Unheard());
    && o.Some?
    && (!l.h.state.KillAsap? ==> o.value == l.h.state.Normal?)
  }

  predicate PeerFine(n: Net, p: PeerId) {
    && (p in n.b.peers ==> !n.b.peers[p].Poisoned?)
    && (n.b.IsLinked(p) <==> p in n.links)
    && Told(n.b.events, p) == Some(n.b.IsOpen(p))
    && (p in n.links && p in n.b.peers ==>
          && n.links[p].start <= |n.b.events|
          && Switched(n.b.events, n.links[p].start, p) == Expected(n.b.peers[p])
          && HandlerFits(n.b.IsOpen(p), n.links[p])
          && (n.b.peers[p].Incoming? ==> Undecided(n, p)))
  }

  predicate HasAlive(incoming: seq<IncomingPeer>, p: PeerId) {
    exists i :: 0 <= i < |incoming| && IsEntry(incoming[i], p, true)
  }

  /** Indices increase, and every undecided connection has an alive entry of its own. */
  predicate EntriesFine(b: Behaviour) {
    && (forall i, j :: 0 <= i < j < |b.incoming| ==> b.incoming[i].index < b.incoming[j].index)
    && (forall i :: 0 <= i < |b.incoming| ==> b.incoming[i].index < b.nextIndex)
    && (forall p :: p in b.peers && b.peers[p].Incoming? ==> HasAlive(b.incoming, p))
  }

  ghost predicate Fine(n: Net) {
    && n.delivered <= |n.b.events|
    && EntriesFine(n.b)
    && forall p :: PeerFine(n, p)
  }

  lemma LinksOk(n: Net)
    requires Fine(n)
    ensures forall p :: p in n.links ==> Ok(n.links[p].h)
  {
    forall p | p in n.links ensures Ok(n.links[p].h) {
      assert PeerFine(n, p);
    }
  }

  // ----- queued events

  lemma {:induction false} ToldMore(events: seq<Event>, more: seq<Event>, p: PeerId)
    requires forall i :: 0 <= i < |more| ==> more[i].peer != p || more[i].SendEvent? || more[i].DialPeer?
    ensures Told(events + more, p) == Told(events, p)
    decreases |more|
  {
    if more == [] {
      assert events + more == events;
    } else {
      var all := events + more;
      assert all[..|all| - 1] == events + more[..|more| - 1] && all[|all| - 1] == more[|more| - 1];
      ToldMore(events, more[..|more| - 1], p);
    }
  }

  lemma ToldOne(events: seq<Event>, e: Event, p: PeerId)
    ensures Told(events + [e], p) == match Told(events, p) case None => None case Some(o) => ToldNext(o, e, p)
  {
    assert (events + [e])[..|events|] == events;
  }

  lemma {:induction false} SwitchedMore(events: seq<Event>, more: seq<Event>, start: nat, p: PeerId)
    requires start <= |events|
    ensures Switched(events + more, start, p) ==
            if Switched(more, 0, p).Some? then Switched(more, 0, p) else Switched(events, start, p)
    decreases |more|
  {
    if more == [] {
      assert events + more == events;
    } else {
      var all := events + more;
      assert all[..|all| - 1] == events + more[..|more| - 1] && all[|all| - 1] == more[|more| - 1];
      SwitchedMore(events, more[..|more| - 1], start, p);
    }
  }

  lemma {:induction false} NoSwitch(more: seq<Event>, p: PeerId)
    requires forall i :: 0 <= i < |more| ==> !IsSwitch(more[i], p)
    ensures Switched(more, 0, p) == None
    decreases |more|
  {
    if more != [] {
      NoSwitch(more[..|more| - 1], p);
    }
  }

  lemma SwitchOfOne(e: Event, p: PeerId)
    ensures Switched([e], 0, p) == if IsSwitch(e, p) then Some(e.command) else None
    ensures Switched([], 0, p) == None
  {
    assert [e][..0] == [];
  }

  // ----- callbacks that leave the connections alone

  /** Only `q` moves, and every new event concerns it. */
  ghost predicate Moves(b: Behaviour, b': Behaviour, q: PeerId, more: seq<Event>) {
    && b'.events == b.events + more
    && (forall i :: 0 <= i < |more| ==> more[i].peer == q)
    && (forall p :: p != q ==> b'.At(p) == b.At(p))
  }

  predicate LinkedAt(st: Option<PeerState>) { st.Some? && st.value.IsLinked() }

  predicate OpenAt(st: Option<PeerState>) { st.Some? && st.value.IsOpen() }

  function ExpectedAt(st: Option<PeerState>): Option<Command> { if st.Some? then Expected(st.value) else None }

  /** A move that neither makes nor breaks a connection, opens or closes nothing, and sends the right command. */
  predicate Legal(st: Option<PeerState>, st': Option<PeerState>, more: seq<Event>, q: PeerId) {
    && (st'.Some? ==> !st'.value.Poisoned?)
    && LinkedAt(st') == LinkedAt(st)
    && OpenAt(st') == OpenAt(st)
    && (forall i :: 0 <= i < |more| ==> more[i].SendEvent? || more[i].DialPeer?)
    && ExpectedAt(st') == (if Switched(more, 0, q).Some? then Switched(more, 0, q) else ExpectedAt(st))
    && (st'.Some? && st'.value.Incoming? ==>
          st == st' && forall i :: 0 <= i < |more| ==> more[i] != SendEvent(q, Enable))
  }

  lemma EnablesMore(n: Net, n': Net, p: PeerId, more: seq<Event>)
    requires NoEnableUnderWay(n, p) && n'.delivered == n.delivered <= |n.b.events| && n'.b.events == n.b.events + more
    requires forall i :: 0 <= i < |more| ==> more[i] != SendEvent(p, Enable)
    ensures NoEnableUnderWay(n', p)
  {
    forall i | n'.delivered <= i < |n'.b.events| ensures n'.b.events[i] != SendEvent(p, Enable) {
      if i >= |n.b.events| {
        assert n'.b.events[i] == more[i - |n.b.events|];
      }
    }
  }

  /** A peer other than the one that moves. */
  lemma OtherFine(n: Net, n': Net, q: PeerId, more: seq<Event>, p: PeerId)
    requires n.delivered <= |n.b.events| && PeerFine(n, p) && p != q
    requires Moves(n.b, n'.b, q, more) && n'.delivered == n.delivered
    requires p in n.links <==> p in n'.links
    requires p in n.links ==> n'.links[p] == n.links[p]
    ensures PeerFine(n', p)
  {
    hide Told;
    hide Switched;
    hide HandlerFits;
    hide NoEnableUnderWay;
    assert n'.b.At(p) == n.b.At(p);
    ToldMore(n.b.events, more, p);
    if p in n.links && p in n.b.peers {
      SwitchedMore(n.b.events, more, n.links[p].start, p);
      NoSwitch(more, p);
      if n.b.peers[p].Incoming? {
        EnablesMore(n, n', p, more);
      }
    }
  }

  lemma MovedFine(n: Net, b': Behaviour, q: PeerId, more: seq<Event>)
    requires n.delivered <= |n.b.events| && PeerFine(n, q)
    requires Moves(n.b, b', q, more) && Legal(n.b.At(q), b'.At(q), more, q)
    ensures PeerFine(n.(b := b'), q)
  {
    hide Told;
    hide Switched;
    hide HandlerFits;
    hide NoEnableUnderWay;
    ToldMore(n.b.events, more, q);
    if q in n.links && q in n.b.peers {
      SwitchedMore(n.b.events, more, n.links[q].start, q);
      if q in b'.peers && b'.peers[q].Incoming? {
        EnablesMore(n, n.(b := b'), q, more);
      }
    }
  }

  lemma MoveKeepsFine(n: Net, b': Behaviour, q: PeerId, more: seq<Event>)
    requires Fine(n) && Moves(n.b, b', q, more) && Legal(n.b.At(q), b'.At(q), more, q) && EntriesFine(b')
    ensures Fine(n.(b := b'))
  {
    forall p ensures PeerFine(n.(b := b'), p) {
      assert PeerFine(n, p);
      if p == q {
        MovedFine(n, b', q, more);
      } else {
        OtherFine(n, n.(b := b'), q, more, p);
      }
    }
  }

  // ----- entries of the incoming list

  lemma AliveAfterKill(incoming: seq<IncomingPeer>, k: Option<nat>, p: PeerId)
    requires k.Some? ==> k.value < |incoming| && incoming[k.value].peer != p
    requires HasAlive(incoming, p)
    ensures HasAlive(Killed(incoming, k), p)
  {
    var i :| 0 <= i < |incoming| && IsEntry(incoming[i], p, true);
    assert IsEntry(Killed(incoming, k)[i], p, true);
  }

  lemma AliveAfterRemoval(incoming: seq<IncomingPeer>, k: nat, p: PeerId)
    requires k < |incoming| && !IsEntry(incoming[k], p, true)
    requires HasAlive(incoming, p)
    ensures HasAlive(Removed(incoming, k), p)
  {
    var i :| 0 <= i < |incoming| && IsEntry(incoming[i], p, true);
    assert IsEntry(Removed(incoming, k)[if i < k then i else i - 1], p, true);
  }

  /** The undecided connections of `b'` were undecided in `b`, and none of them is `q`. */
  predicate Decides(b: Behaviour, b': Behaviour, q: PeerId) {
    && b'.nextIndex == b.nextIndex
    && forall p :: p in b'.peers && b'.peers[p].Incoming? ==> p != q && p in b.peers && b.peers[p].Incoming?
  }

  lemma EntriesAfterKill(b: Behaviour, b': Behaviour, q: PeerId, k: Option<nat>)
    requires EntriesFine(b) && Decides(b, b', q)
    requires k.Some? ==> k.value < |b.incoming| && b.incoming[k.value].peer == q
    requires b'.incoming == Killed(b.incoming, k)
    ensures EntriesFine(b')
  {
    hide HasAlive;
    forall p | p in b'.peers && b'.peers[p].Incoming? ensures HasAlive(b'.incoming, p) {
      AliveAfterKill(b.incoming, k, p);
    }
  }

  lemma EntriesAfterRemoval(b: Behaviour, b': Behaviour, k: nat)
    requires EntriesFine(b) && k < |b.incoming| && b'.incoming == Removed(b.incoming, k) && b'.nextIndex == b.nextIndex
    requires forall p :: p in b'.peers && b'.peers[p].Incoming? ==>
               p in b.peers && b.peers[p].Incoming? && !IsEntry(b.incoming[k], p, true)
    ensures EntriesFine(b')
  {
    hide HasAlive;
    forall p | p in b'.peers && b'.peers[p].Incoming? ensures HasAlive(b'.incoming, p) {
      AliveAfterRemoval(b.incoming, k, p);
    }
    forall i, j | 0 <= i < j < |b'.incoming| ensures b'.incoming[i].index < b'.incoming[j].index {
      assert b'.incoming[i] == b.incoming[if i < k then i else i + 1];
      assert b'.incoming[j] == b.incoming[if j < k then j else j + 1];
    }
  }

  /** The list is left alone, and nothing new is undecided. */
  lemma EntriesKept(b: Behaviour, b': Behaviour)
    requires EntriesFine(b) && b'.incoming == b.incoming && b'.nextIndex == b.nextIndex
    requires forall p :: p in b'.peers && b'.peers[p].Incoming? ==> p in b.peers && b.peers[p].Incoming?
    ensures EntriesFine(b')
  {
    hide HasAlive;
  }

  // ----- each callback is a legal move

  ghost predicate Good(b: Behaviour, b': Behaviour, q: PeerId, more: seq<Event>) {
    Moves(b, b', q, more) && Legal(b.At(q), b'.At(q), more, q) && EntriesFine(b')
  }

  /** What a callback relies on. */
  ghost predicate Sane(b: Behaviour) {
    EntriesFine(b) && forall p :: p in b.peers ==> !b.peers[p].Poisoned?
  }

  lemma DisconnectIsGood(b: Behaviour, q: PeerId, ban: Option<nat>, now: nat) returns (more: seq<Event>)
    requires Sane(b)
    ensures Good(b, DisconnectPeer(b, q, ban, now).next, q, more)
  {
    hide EntriesFine, Switched;
    SwitchOfOne(SendEvent(q, Disable), q);
    var b' := DisconnectPeer(b, q, ban, now).next;
    var st := b.At(q);
    more := if st.Some? && (st.value.Enabled? || st.value.Incoming?) then [SendEvent(q, Disable)] else [];
    if st.Some? && st.value.Incoming? {
      AliveIsFound(b, q);
      EntriesAfterKill(b, b', q, FindEntry(b.incoming, q, true));
    } else {
      EntriesKept(b, b');
    }
  }

  lemma AliveIsFound(b: Behaviour, q: PeerId)
    requires EntriesFine(b) && q in b.peers && b.peers[q].Incoming?
    ensures FindEntry(b.incoming, q, true).Some?
  {
    assert HasAlive(b.incoming, q);
  }

  lemma ConnectIsGood(b: Behaviour, q: PeerId, now: nat) returns (more: seq<Event>)
    requires Sane(b)
    ensures Good(b, PsmConnect(b, q, now), q, more)
  {
    hide EntriesFine, Switched;
    SwitchOfOne(SendEvent(q, Enable), q);
    var b' := PsmConnect(b, q, now);
    var st := b.At(q);
    more := b'.events[|b.events|..];
    assert more == [] || more == [DialPeer(q)] || more == [SendEvent(q, Enable)];
    SwitchOfOne(DialPeer(q), q);
    if st.Some? && st.value.Incoming? {
      EntriesAfterKill(b, b', q, FindEntry(b.incoming, q, true));
    } else {
      EntriesKept(b, b');
    }
  }

  lemma DropIsGood(b: Behaviour, q: PeerId) returns (more: seq<Event>)
    requires Sane(b)
    ensures Good(b, PsmDrop(b, q), q, more)
  {
    hide EntriesFine, Switched;
    SwitchOfOne(SendEvent(q, Disable), q);
    more := PsmDrop(b, q).events[|b.events|..];
    assert more == [] || more == [SendEvent(q, Disable)];
    EntriesKept(b, PsmDrop(b, q));
  }

  lemma AcceptIsGood(b: Behaviour, index: nat) returns (q: PeerId, more: seq<Event>)
    requires Sane(b)
    ensures Good(b, PsmAccept(b, index).next, q, more)
  {
    hide EntriesFine, Switched;
    var b' := PsmAccept(b, index).next;
    q, more := 0, b'.events[|b.events|..];
    var k := FindIndex(b.incoming, index);
    SwitchOfOne(SendEvent(q, Enable), q);
    if k.Some? {
      q := b.incoming[k.value].peer;
      assert more == [] || more == [SendEvent(q, Enable)];
      SwitchOfOne(SendEvent(q, Enable), q);
      EntriesAfterRemoval(b, b', k.value);
    }
  }

  lemma RejectIsGood(b: Behaviour, index: nat) returns (q: PeerId, more: seq<Event>)
    requires Sane(b)
    ensures Good(b, PsmReject(b, index), q, more)
  {
    hide EntriesFine, Switched;
    var b' := PsmReject(b, index);
    q, more := 0, b'.events[|b.events|..];
    var k := FindIndex(b.incoming, index);
    SwitchOfOne(SendEvent(q, Disable), q);
    if k.Some? {
      q := b.incoming[k.value].peer;
      assert more == [] || more == [SendEvent(q, Disable)];
      SwitchOfOne(SendEvent(q, Disable), q);
      EntriesAfterRemoval(b, b', k.value);
    }
  }

  lemma SmallTurnIsGood(b: Behaviour, act: Act, now: nat) returns (more: seq<Event>)
    requires Sane(b) && (act.CannotDial? || act.AskSend? || act.TimerEnds?)
    ensures Good(b, Turned(b, act, now), act.p, more)
  {
    hide EntriesFine, Switched;
    SwitchOfOne(DialPeer(act.p), act.p);
    more := Turned(b, act, now).events[|b.events|..];
    assert more == [] || more == [DialPeer(act.p)] || more == [SendEvent(act.p, Enable)]
        || (act.AskSend? && more == [SendEvent(act.p, SendCustomMessage(act.message))]);
    if more != [] {
      SwitchOfOne(more[0], act.p);
    }
    EntriesKept(b, Turned(b, act, now));
  }

  lemma TurnIsGood(b: Behaviour, act: Act, now: nat) returns (q: PeerId, more: seq<Event>)
    requires Sane(b) && IsTurn(act)
    ensures Good(b, Turned(b, act, now), q, more)
  {
    hide Good;
    if act.Accepted? {
      q, more := AcceptIsGood(b, act.index);
    } else if act.Rejected? {
      q, more := RejectIsGood(b, act.index);
    } else {
      q := act.p;
      if act.WantConnect? {
        more := ConnectIsGood(b, q, now);
      } else if act.WantDrop? {
        more := DropIsGood(b, q);
      } else if act.AskDisconnect? {
        more := DisconnectIsGood(b, q, None, now);
      } else {
        more := SmallTurnIsGood(b, act, now);
      }
    }
  }

  lemma TurnKeepsFine(n: Net, act: Act, now: nat)
    requires Fine(n) && IsTurn(act)
    ensures Fine(n.(b := Turned(n.b, act, now)))
  {
    forall p | p in n.b.peers ensures !n.b.peers[p].Poisoned? {
      assert PeerFine(n, p);
    }
    var q, more := TurnIsGood(n.b, act, now);
    MoveKeepsFine(n, Turned(n.b, act, now), q, more);
  }
}
