/** The network behaviour that keeps, for every peer, the swarm, the connection handler, the peer set manager
    and the external API in step.  Each callback is a function from the behaviour (and the clock) to the new
    behaviour and the calls it makes on the peer set manager. */
module PeerBehaviour {
  import opened Basics
  import opened PeerTable

  const U64_MAX: nat := 0xffff_ffff_ffff_ffff

  datatype Endpoint = Dialer | Listener

  datatype PeerState =
    | Poisoned
    | Banned(until: nat)
    | PendingRequest(deadline: nat)
    | Requested
    | Disabled(point: Endpoint, open: bool, bannedUntil: Option<nat>)
    | DisabledPendingEnable(point: Endpoint, open: bool, deadline: nat)
    | Enabled(point: Endpoint, open: bool)
    | Incoming(point: Endpoint)
  {
    predicate IsOpen() {
      match this
      case Disabled(_, open, _) => open
      case DisabledPendingEnable(_, open, _) => open
      case Enabled(_, open) => open
      case _ => false
    }

    /** A connection with the peer exists. */
    predicate IsLinked() { Disabled? || DisabledPendingEnable? || Enabled? || Incoming? }

    /** The peer set manager counts the peer as connected. */
    predicate IsWanted() { PendingRequest? || Requested? || DisabledPendingEnable? || Enabled? }

    /** The recorded ban deadline. */
    function Deadline(): Option<nat> {
      match this
      case Banned(until) => Some(until)
      case PendingRequest(deadline) => Some(deadline)
      case Disabled(_, _, until) => until
      case DisabledPendingEnable(_, _, deadline) => Some(deadline)
      case _ => None
    }

    function WithOpen(open': bool): PeerState {
      match this
      case Disabled(point, _, until) => Disabled(point, open', until)
      case DisabledPendingEnable(point, _, deadline) => DisabledPendingEnable(point, open', deadline)
      case Enabled(point, _) => Enabled(point, open')
      case _ => this
    }
  }

  /** A question to the manager about a connection the remote made; `alive` is to say that the connection still exists. */
  datatype IncomingPeer = IncomingPeer(peer: PeerId, alive: bool, index: nat)

  datatype Command = Enable | Disable | SendCustomMessage(message: string)

  datatype Event =
    | DialPeer(peer: PeerId)
    | SendEvent(peer: PeerId, command: Command)
    | ExternalOpen(peer: PeerId)
    | ExternalClosed(peer: PeerId)
    | ExternalMessage(peer: PeerId, message: string)
    | ExternalClogged(peer: PeerId)

  /** What a connection handler reports. */
  datatype HandlerOut =
    | CustomProtocolOpen
    | CustomProtocolClosed
    | CustomMessage(message: string)
    | Clogged
    | ProtocolError(isSevere: bool)

  datatype Call = CallIncoming(peer: PeerId, index: nat) | CallDropped(peer: PeerId) | CallReport(peer: PeerId)

  datatype Behaviour = Behaviour(
    peers: map<PeerId, PeerState>,
    incoming: seq<IncomingPeer>,
    nextIndex: nat,
    events: seq<Event>)
  {
    function At(p: PeerId): Option<PeerState> { if p in peers then Some(peers[p]) else None }

    predicate IsOpen(p: PeerId) { p in peers && peers[p].IsOpen() }

    predicate IsLinked(p: PeerId) { p in peers && peers[p].IsLinked() }

    predicate IsWanted(p: PeerId) { p in peers && peers[p].IsWanted() }

    /** The manager has to decide about this connection: the remote made it, and nobody asked for it. */
    predicate IsUnasked(p: PeerId, point: Endpoint) { point.Listener? && !IsWanted(p) }

    function WantedPeers(): set<PeerId> { set p | p in peers && peers[p].IsWanted() }

    /** Peer `p` moves to `st`, and `produced` is queued. */
    function Moved(p: PeerId, st: PeerState, produced: seq<Event>): Behaviour {
      this.(peers := peers[p := st], events := events + produced)
    }
  }

  const INITIAL := Behaviour(map[], [], 0, [])

  datatype Outcome = Outcome(next: Behaviour, calls: seq<Call>)

  // ----- lookups in the incoming list

  predicate IsEntry(i: IncomingPeer, p: PeerId, aliveOnly: bool) { i.peer == p && (aliveOnly ==> i.alive) }

  /** Position of the first entry for `p`; with `aliveOnly`, of the first alive one. */
  function FindEntry(incoming: seq<IncomingPeer>, p: PeerId, aliveOnly: bool): (r: Option<nat>)
    ensures r.Some? ==> r.value < |incoming| && IsEntry(incoming[r.value], p, aliveOnly)
    ensures r.Some? ==> forall j :: 0 <= j < r.value ==> !IsEntry(incoming[j], p, aliveOnly)
    ensures r.None? ==> forall j :: 0 <= j < |incoming| ==> !IsEntry(incoming[j], p, aliveOnly)
  {
    if incoming == [] then None
    else if IsEntry(incoming[0], p, aliveOnly) then Some(0)
    else
      match FindEntry(incoming[1..], p, aliveOnly)
      case None => None
      case Some(k) => Some(k + 1)
  }

  function FindIndex(incoming: seq<IncomingPeer>, index: nat): (r: Option<nat>)
    ensures r.Some? ==> r.value < |incoming| && incoming[r.value].index == index
    ensures r.Some? ==> forall j :: 0 <= j < r.value ==> incoming[j].index != index
    ensures r.None? ==> forall j :: 0 <= j < |incoming| ==> incoming[j].index != index
  {
    if incoming == [] then None
    else if incoming[0].index == index then Some(0)
    else
      match FindIndex(incoming[1..], index)
      case None => None
      case Some(k) => Some(k + 1)
  }

  function Killed(incoming: seq<IncomingPeer>, at: Option<nat>): seq<IncomingPeer>
    requires at.Some? ==> at.value < |incoming|
  {
    if at.Some? then incoming[at.value := incoming[at.value].(alive := false)] else incoming
  }

  function Removed<T>(s: seq<T>, at: nat): seq<T>
    requires at < |s|
  {
    s[..at] + s[at + 1..]
  }

  // ----- callbacks

  function Max(a: nat, b: nat): nat { if a > b then a else b }

  /** `disconnect_peer`, with the ban duration of a protocol error if there is one. */
  function DisconnectPeer(b: Behaviour, p: PeerId, ban: Option<nat>, now: nat): Outcome {
    match b.At(p)
    case Some(DisabledPendingEnable(point, open, deadline)) =>
      var until := if ban.Some? then Max(deadline, now + ban.value) else deadline;
      Outcome(b.Moved(p, Disabled(point, open, Some(until)), []), [CallDropped(p)])
    case Some(Enabled(point, open)) =>
      var until := if ban.Some? then Some(now + ban.value) else None;
      Outcome(b.Moved(p, Disabled(point, open, until), [SendEvent(p, Disable)]), [CallDropped(p)])
    case Some(Incoming(point)) =>
      var entry := FindEntry(b.incoming, p, true);
      if entry.None? then Outcome(b.Moved(p, Poisoned, []), [])
      else
        var until := if ban.Some? then Some(now + ban.value) else None;
        Outcome(b.(incoming := Killed(b.incoming, entry)).Moved(p, Disabled(point, false, until), [SendEvent(p, Disable)]), [])
    case _ => Outcome(b, [])
  }

  /** Connect: the manager has chosen `p`. */
  function PsmConnect(b: Behaviour, p: PeerId, now: nat): Behaviour {
    match b.At(p)
    case None => b.Moved(p, Requested, [DialPeer(p)])
    case Some(Banned(until)) =>
      if until > now then b.Moved(p, PendingRequest(until), []) else b.Moved(p, Requested, [DialPeer(p)])
    case Some(Disabled(point, open, until)) =>
      if until.Some? && until.value > now then b.Moved(p, DisabledPendingEnable(point, open, until.value), [])
      else b.Moved(p, Enabled(point, open), [SendEvent(p, Enable)])
    case Some(Incoming(point)) =>
      b.(incoming := Killed(b.incoming, FindEntry(b.incoming, p, true))).Moved(p, Enabled(point, false), [SendEvent(p, Enable)])
    case _ => b
  }

  /** Drop: the manager has given up `p`. */
  function PsmDrop(b: Behaviour, p: PeerId): Behaviour {
    match b.At(p)
    case Some(DisabledPendingEnable(point, open, deadline)) => b.Moved(p, Disabled(point, open, Some(deadline)), [])
    case Some(Enabled(point, open)) => b.Moved(p, Disabled(point, open, None), [SendEvent(p, Disable)])
    case Some(Requested) => b.(peers := b.peers - {p})
    case Some(PendingRequest(deadline)) => b.Moved(p, Banned(deadline), [])
    case _ => b
  }

  /** The manager accepts incoming connection `index`. */
  function PsmAccept(b: Behaviour, index: nat): Outcome {
    match FindIndex(b.incoming, index)
    case None => Outcome(b, [])
    case Some(k) =>
      var entry := b.incoming[k];
      var rest := b.(incoming := Removed(b.incoming, k));
      if !entry.alive then Outcome(rest, [CallDropped(entry.peer)])
      else
        match b.At(entry.peer)
        case Some(Incoming(point)) => Outcome(rest.Moved(entry.peer, Enabled(point, false), [SendEvent(entry.peer, Enable)]), [])
        case _ => Outcome(rest, [])
  }

  /** The manager rejects incoming connection `index`. */
  function PsmReject(b: Behaviour, index: nat): Behaviour {
    match FindIndex(b.incoming, index)
    case None => b
    case Some(k) =>
      var entry := b.incoming[k];
      var rest := b.(incoming := Removed(b.incoming, k));
      if !entry.alive then rest
      else
        match b.At(entry.peer)
        case Some(Incoming(point)) => rest.Moved(entry.peer, Disabled(point, false, None), [SendEvent(entry.peer, Disable)])
        case _ => rest
  }

  /** The swarm established a connection. */
  function InjectConnected(b: Behaviour, p: PeerId, point: Endpoint): Outcome {
    match b.At(p)
    case Some(Requested) => Outcome(b.Moved(p, Enabled(point, false), [SendEvent(p, Enable)]), [])
    case Some(PendingRequest(_)) => Outcome(b.Moved(p, Enabled(point, false), [SendEvent(p, Enable)]), [])
    case None => FreshConnection(b, p, point, None)
    case Some(Poisoned) => FreshConnection(b, p, point, None)
    case Some(Banned(until)) => FreshConnection(b, p, point, Some(until))
    case _ => Outcome(b, [])
  }

  /** A connection the manager did not ask for.  An exhausted index leaves an absent peer poisoned. */
  function FreshConnection(b: Behaviour, p: PeerId, point: Endpoint, until: Option<nat>): Outcome {
    if point.Dialer? then Outcome(b.Moved(p, Disabled(point, false, until), [SendEvent(p, Disable)]), [])
    else if b.nextIndex == U64_MAX then Outcome(if until.Some? then b else b.Moved(p, Poisoned, []), [])
    else
      Outcome(b.(incoming := b.incoming + [IncomingPeer(p, true, b.nextIndex)], nextIndex := b.nextIndex + 1)
               .Moved(p, Incoming(point), []),
              [CallIncoming(p, b.nextIndex)])
  }

  function ClosedIf(p: PeerId, open: bool): seq<Event> { if open then [ExternalClosed(p)] else [] }

  /** The swarm lost the connection.  `ban` is the random delay before the peer is dialled again. */
  function InjectDisconnected(b: Behaviour, p: PeerId, ban: nat, now: nat): Outcome {
    var gone := b.(peers := b.peers - {p});
    match b.At(p)
    case Some(Disabled(_, open, until)) =>
      Outcome((if until.Some? then gone.Moved(p, Banned(until.value), []) else gone).(events := b.events + ClosedIf(p, open)), [])
    case Some(DisabledPendingEnable(_, open, deadline)) =>
      Outcome(gone.Moved(p, Banned(deadline), ClosedIf(p, open)), [CallDropped(p)])
    case Some(Enabled(_, open)) =>
      Outcome(gone.Moved(p, Banned(now + ban), ClosedIf(p, open)), [CallDropped(p)])
    case Some(Incoming(_)) =>
      Outcome(gone.(incoming := Killed(b.incoming, FindEntry(b.incoming, p, false))), [])
    case _ => Outcome(gone, [])
  }

  function InjectDialFailure(b: Behaviour, p: PeerId, now: nat): Outcome {
    match b.At(p)
    case Some(Requested) => Outcome(b.Moved(p, Banned(now + 5 * SECOND), []), [CallDropped(p)])
    case Some(PendingRequest(_)) => Outcome(b.Moved(p, Banned(now + 5 * SECOND), []), [CallDropped(p)])
    case _ => Outcome(b, [])
  }

  /** A report from the connection handler of `p`. */
  function InjectNodeEvent(b: Behaviour, p: PeerId, out: HandlerOut, now: nat): Outcome {
    match out
    case CustomProtocolClosed =>
      if p !in b.peers then Outcome(b, [])
      else
        var told := b.(events := b.events + [ExternalClosed(p)]);
        (match b.peers[p]
         case Enabled(point, _) => Outcome(told.Moved(p, Disabled(point, false, None), [SendEvent(p, Disable)]), [CallDropped(p)])
         case Disabled(point, _, until) => Outcome(told.Moved(p, Disabled(point, false, until), []), [])
         case DisabledPendingEnable(point, _, deadline) => Outcome(told.Moved(p, DisabledPendingEnable(point, false, deadline), []), [])
         case _ => Outcome(told.Moved(p, Poisoned, []), []))
    case CustomProtocolOpen =>
      if p in b.peers && (b.peers[p].Enabled? || b.peers[p].DisabledPendingEnable? || b.peers[p].Disabled?) && !b.peers[p].open then
        Outcome(b.Moved(p, b.peers[p].WithOpen(true), [ExternalOpen(p)]), [])
      else Outcome(b, [])
    case CustomMessage(message) => Outcome(b.(events := b.events + [ExternalMessage(p, message)]), [])
    case Clogged => Outcome(b.(events := b.events + [ExternalClogged(p)]), [])
    case ProtocolError(isSevere) =>
      if !isSevere then Outcome(b, [])
      else
        var o := DisconnectPeer(b, p, Some(5 * SECOND), now);
        Outcome(o.next, [CallReport(p)] + o.calls)
  }

  /** The timer of `p` has fired. */
  function TimerFired(b: Behaviour, p: PeerId): Behaviour {
    match b.At(p)
    case Some(PendingRequest(_)) => b.Moved(p, Requested, [DialPeer(p)])
    case Some(DisabledPendingEnable(point, open, _)) => b.Moved(p, Enabled(point, open), [SendEvent(p, Enable)])
    case _ => b
  }

  function SendPacket(b: Behaviour, p: PeerId, message: string): Behaviour {
    if b.IsOpen(p) then b.(events := b.events + [SendEvent(p, SendCustomMessage(message))]) else b
  }
}
