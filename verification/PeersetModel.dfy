/** The peer set manager: whom to dial, whom to accept, whom to drop.

    `State` is the manager as a value and `Next` its steps; hash-map iteration order is left open, so a step
    that picks peers carries the picked peers as a witness.  The class `Peerset` is the mutable manager. */
module PeersetModel {
  import opened Reputation
  import opened Basics
  import opened PeerTable

  /** Reserved peers group. */
  const RESERVED_NODES: string := "reserved"

  datatype Message =
    | Connect(peer: PeerId)
    | Drop(peer: PeerId)
    | Accept(index: nat)
    | Reject(index: nat)

  datatype Action =
    | AddReservedPeer(peer: PeerId)
    | RemoveReservedPeer(peer: PeerId)
    | SetReservedOnly(only: bool)
    | ReportPeer(peer: PeerId, change: i32)
    | SetPriorityGroup(group: string, peers: set<PeerId>)
    | AddToPriorityGroup(group: string, peer: PeerId)
    | RemoveFromPriorityGroup(group: string, peer: PeerId)

  datatype State = State(
    peers: Peers,
    reservedOnly: bool,
    rx: seq<Action>,
    queue: seq<Message>,
    created: nat,
    latest: nat)
  {
    /** Facts that hold of every state a manager can be in. */
    predicate Ok() {
      peers.GroupsKnown() && peers.priorityOnly == reservedOnly && created <= latest
    }
  }

  // ----- time

  function Decayed(peers: Peers, n: nat): Peers {
    peers.(nodes := map p | p in peers.nodes :: peers.nodes[p].(reputation := Ticks(peers.nodes[p].reputation, n)))
  }

  /** Whole seconds between the last update and `now`, counted from the creation of the manager. */
  function SecondsSince(s: State, now: nat): nat
    requires s.created <= s.latest <= now
  {
    var n := (now - s.created) / SECOND;
    var m := (s.latest - s.created) / SECOND;
    assert m <= n;
    n - m
  }

  function TimeUpdated(s: State, now: nat): State
    requires s.created <= s.latest <= now
  {
    s.(peers := Decayed(s.peers, SecondsSince(s, now)), latest := now)
  }

  /** No second is missed or counted twice, however often the time is updated. */
  lemma TimeUpdatesCompose(s: State, t1: nat, t2: nat)
    requires s.created <= s.latest <= t1 <= t2
    ensures TimeUpdated(TimeUpdated(s, t1), t2) == TimeUpdated(s, t2)
  {
    var n1, n2 := SecondsSince(s, t1), SecondsSince(TimeUpdated(s, t1), t2);
    assert n1 + n2 == SecondsSince(s, t2);
    forall p | p in s.peers.nodes
      ensures Ticks(Ticks(s.peers.nodes[p].reputation, n1), n2) == Ticks(s.peers.nodes[p].reputation, n1 + n2)
    {
      TicksAdd(s.peers.nodes[p].reputation, n1, n2);
    }
  }

  /** Time `t` lies in the `k`-th second of the manager's life. */
  predicate InSecond(s: State, t: nat, k: nat) { s.created + k * SECOND <= t < s.created + (k + 1) * SECOND }

  /** Every peer is ticked as often as a new second of the manager's life has begun; within one second nothing happens. */
  lemma TickPerSecond(s: State, now: nat, k: nat, n: nat)
    requires s.created <= s.latest <= now && InSecond(s, s.latest, k) && InSecond(s, now, n)
    ensures k <= n && TimeUpdated(s, now).peers.nodes.Keys == s.peers.nodes.Keys
    ensures forall p :: TimeUpdated(s, now).peers.Reputation(p) == Ticks(s.peers.Reputation(p), n - k)
    ensures k == n ==> TimeUpdated(s, now) == s.(latest := now)
  {
    QuotientIs(s.latest - s.created, k);
    QuotientIs(now - s.created, n);
    NothingTicks(n - k);
  }

  lemma QuotientIs(x: nat, k: nat)
    requires k * SECOND <= x < (k + 1) * SECOND
    ensures x / SECOND == k
  {
  }

  /** Unknown peers stay at zero. */
  lemma {:induction false} NothingTicks(n: nat)
    ensures Ticks(0, n) == 0
    decreases n
  {
    if n > 0 {
      NothingTicks(n - 1);
    }
  }

  /** `n` seconds make `n` ticks, whenever they begin. */
  lemma TicksInSeconds(s: State, n: nat)
    requires s.created <= s.latest
    ensures forall p :: TimeUpdated(s, s.latest + n * SECOND).peers.Reputation(p) == Ticks(s.peers.Reputation(p), n)
  {
    var k := (s.latest - s.created) / SECOND;
    TickPerSecond(s, s.latest + n * SECOND, k, k + n);
  }

  /** However bad the score, ten seconds without further reports lift the ban. */
  lemma BanLifted(s: State, now: nat, p: PeerId)
    requires s.created <= s.latest && s.latest + 10 * SECOND <= now
    ensures TimeUpdated(s, now).peers.Reputation(p) >= BANNED_THRESHOLD
  {
    hide TimeUpdated, Ticks;
    var k, n := (s.latest - s.created) / SECOND, (now - s.created) / SECOND;
    TickPerSecond(s, now, k, n);
    BannedAtMostTenTicks(s.peers.Reputation(p), n - k);
  }

  /** Nine are not enough for the worst score. */
  lemma BanLasts(s: State, p: PeerId, n: nat)
    requires s.created <= s.latest && s.peers.Reputation(p) == I32_MIN && n <= 9
    ensures TimeUpdated(s, s.latest + n * SECOND).peers.Reputation(p) < BANNED_THRESHOLD
  {
    hide TimeUpdated, Ticks;
    TicksInSeconds(s, n);
    WorstCaseTenTicks(n);
  }

  /** Every score is forgotten after as many seconds as it has points. */
  lemma ScoreForgotten(s: State, now: nat, p: PeerId)
    requires s.created <= s.latest && s.latest + Abs(s.peers.Reputation(p)) * SECOND <= now
    ensures TimeUpdated(s, now).peers.Reputation(p) == 0
  {
    var k, n := (s.latest - s.created) / SECOND, (now - s.created) / SECOND;
    TickPerSecond(s, now, k, n);
    EventuallyForgotten(s.peers.Reputation(p), n - k);
  }

  /** Decay leaves connections, groups and slots alone. */
  lemma DecayKeepsConnections(peers: Peers, n: nat)
    ensures Decayed(peers, n).ConnectedPeers() == peers.ConnectedPeers()
    ensures forall c :: Decayed(peers, n).Occupants(c) == peers.Occupants(c)
    ensures forall p :: Decayed(peers, n).IsPriority(p) == peers.IsPriority(p)
  {
    assert forall p :: Decayed(peers, n).IsPriority(p) == peers.IsPriority(p);
  }

  // ----- slot allocation

  function Dialled(peers: Peers, ids: seq<PeerId>): Peers {
    peers.(nodes := map p | p in peers.nodes ::
                      if p in ids then peers.nodes[p].(connection := Out) else peers.nodes[p])
  }

  function ConnectAll(ids: seq<PeerId>): seq<Message> { seq(|ids|, i requires 0 <= i < |ids| => Connect(ids[i])) }

  function DropAll(ids: seq<PeerId>): seq<Message> { seq(|ids|, i requires 0 <= i < |ids| => Drop(ids[i])) }

  predicate Distinct(ids: seq<PeerId>) { forall i, j :: 0 <= i < j < |ids| ==> ids[i] != ids[j] }

  /** The priority peers that slot allocation must connect. */
  predicate Eligible(peers: Peers, reservedOnly: bool, p: PeerId) {
    if reservedOnly then p in peers.Group(RESERVED_NODES) else peers.IsPriority(p)
  }

  /** What slot allocation may do from table `peers`: dial `ids`, in that order, and nothing else. */
  ghost predicate Allocated(peers: Peers, reservedOnly: bool, ids: seq<PeerId>, after: Peers) {
    && after == Dialled(peers, ids)
       // Only known idle peers are dialled, each once; in reserved-only mode only reserved ones.
    && Distinct(ids)
    && (forall i :: 0 <= i < |ids| ==> peers.Idle(ids[i]))
    && (reservedOnly ==> forall i :: 0 <= i < |ids| ==> Eligible(peers, true, ids[i]))
       // Every eligible priority peer ends up connected.
    && (forall p :: Eligible(peers, reservedOnly, p) ==> !after.Idle(p))
       // Ordinary peers come last, best reputation first, never below the ban threshold, and none left out is better.
    && (forall i, j :: 0 <= i < j < |ids| && peers.IsPriority(ids[j]) ==> peers.IsPriority(ids[i]))
    && (forall i, j :: 0 <= i < j < |ids| && !peers.IsPriority(ids[i]) ==> peers.Reputation(ids[i]) >= peers.Reputation(ids[j]))
    && (forall i :: 0 <= i < |ids| && !peers.IsPriority(ids[i]) ==> peers.Reputation(ids[i]) >= BANNED_THRESHOLD)
    && (forall i, q :: 0 <= i < |ids| && !peers.IsPriority(ids[i]) && after.Idle(q) ==>
          peers.Reputation(ids[i]) >= peers.Reputation(q))
       // Ordinary peers only take free slots, and a slot stays free only for want of an acceptable peer.
    && ((exists i :: 0 <= i < |ids| && !peers.IsPriority(ids[i])) ==> after.NumOut() <= after.maxOut)
    && (!reservedOnly && after.NumOut() < after.maxOut ==> forall q :: after.Idle(q) ==> peers.Reputation(q) < BANNED_THRESHOLD)
  }

  ghost predicate SlotsAllocated(s: State, now: nat, ids: seq<PeerId>, s': State)
    requires s.created <= s.latest <= now
  {
    var t := TimeUpdated(s, now);
    && Allocated(t.peers, t.reservedOnly, ids, s'.peers)
    && s' == t.(peers := s'.peers, queue := t.queue + ConnectAll(ids))
  }

  // ----- the other operations

  function IncomingResult(s: State, p: PeerId, index: nat, now: nat): State
    requires s.created <= s.latest <= now
  {
    var t := TimeUpdated(s, now);
    if t.peers.Connected(p) then t
    else
      var known := t.peers.Discovered(p);
      if known.Reputation(p) < BANNED_THRESHOLD || !known.MayAccept(p) then
        t.(peers := known, queue := t.queue + [Reject(index)])
      else
        t.(peers := known.WithConnection(p, In), queue := t.queue + [Accept(index)])
  }

  /** `dropped` up to the point where slots are allocated again. */
  function DroppedFirst(s: State, p: PeerId, now: nat): State
    requires s.created <= s.latest <= now
  {
    var t := TimeUpdated(s, now);
    if t.peers.Connected(p) then
      t.(peers := t.peers.WithReputation(p, Saturate(t.peers.Reputation(p) + DISCONNECT_REPUTATION_CHANGE))
                         .WithConnection(p, NotConnected))
    else t
  }

  function DiscoveredAll(peers: Peers, ids: seq<PeerId>): Peers
    decreases |ids|
  {
    if ids == [] then peers else DiscoveredAll(peers, ids[..|ids| - 1]).Discovered(ids[|ids| - 1])
  }

  function ReservedRemoved(s: State, p: PeerId): State {
    var t := s.(peers := s.peers.WithGroup(RESERVED_NODES, s.peers.Group(RESERVED_NODES) - {p}));
    if t.peers.Connected(p) && t.reservedOnly then
      t.(peers := t.peers.WithConnection(p, NotConnected), queue := t.queue + [Drop(p)])
    else t
  }

  function Reported(s: State, p: PeerId, change: i32, now: nat): State
    requires s.created <= s.latest <= now
  {
    var t := TimeUpdated(s, now);
    var scored := t.peers.WithReputation(p, Saturate(t.peers.Reputation(p) + change));
    if t.peers.Connected(p) && scored.Reputation(p) < BANNED_THRESHOLD then
      t.(peers := scored.WithConnection(p, NotConnected), queue := t.queue + [Drop(p)])
    else t.(peers := scored)
  }

  function Disconnected(peers: Peers, ids: seq<PeerId>): Peers {
    peers.(nodes := map p | p in peers.nodes ::
                      if p in ids then peers.nodes[p].(connection := NotConnected) else peers.nodes[p])
  }

  /** `ids` lists the connected peers outside the reserved group, in any order. */
  ghost predicate Expelled(peers: Peers, ids: seq<PeerId>) {
    Distinct(ids) && forall p :: p in ids <==> peers.Connected(p) && p !in peers.Group(RESERVED_NODES)
  }

  datatype Op =
    | Incoming(peer: PeerId, index: nat)
    | Dropped(peer: PeerId)
    | Discover(ids: seq<PeerId>)
    | Send(action: Action)
    | Act
    | Take

  /** One step of the manager.  `ids` are the peers picked by slot allocation, or expelled when
      reserved-only mode is switched on. */
  ghost predicate Next(s: State, op: Op, now: nat, ids: seq<PeerId>, s': State)
    requires s.created <= s.latest <= now
  {
    match op
    case Incoming(p, index) => ids == [] && s' == IncomingResult(s, p, index, now)
    case Dropped(p) => SlotsAllocated(DroppedFirst(s, p, now), now, ids, s')
    case Discover(found) =>
      if forall p :: p in found ==> s.peers.Known(p) then ids == [] && s' == s
      else SlotsAllocated(s.(peers := DiscoveredAll(s.peers, found)), now, ids, s')
    case Send(action) => ids == [] && s' == s.(rx := s.rx + [action])
    case Act => s.rx != [] && s.queue == [] && Acted(s.(rx := s.rx[1..]), s.rx[0], now, ids, s')
    case Take => s.queue != [] && ids == [] && s' == s.(queue := s.queue[1..])
  }

  ghost predicate Acted(s: State, action: Action, now: nat, ids: seq<PeerId>, s': State)
    requires s.created <= s.latest <= now
  {
    match action
    case AddReservedPeer(p) =>
      SlotsAllocated(s.(peers := s.peers.WithGroup(RESERVED_NODES, s.peers.Group(RESERVED_NODES) + {p})), now, ids, s')
    case RemoveReservedPeer(p) => ids == [] && s' == ReservedRemoved(s, p)
    case SetReservedOnly(only) =>
      var t := s.(reservedOnly := only, peers := s.peers.(priorityOnly := only));
      if only then
        Expelled(t.peers, ids) && s' == t.(peers := Disconnected(t.peers, ids), queue := t.queue + DropAll(ids))
      else SlotsAllocated(t, now, ids, s')
    case ReportPeer(p, change) => ids == [] && s' == Reported(s, p, change, now)
    case SetPriorityGroup(group, members) =>
      SlotsAllocated(s.(peers := s.peers.WithGroup(group, members)), now, ids, s')
    case AddToPriorityGroup(group, p) =>
      SlotsAllocated(s.(peers := s.peers.WithGroup(group, s.peers.Group(group) + {p})), now, ids, s')
    case RemoveFromPriorityGroup(group, p) =>
      SlotsAllocated(s.(peers := s.peers.WithGroup(group, s.peers.Group(group) - {p})), now, ids, s')
  }

  /** A manager as configured, before its first slot allocation. */
  ghost predicate Configured(s: State, now: nat) {
    s.Ok() && s.latest <= now && s.queue == [] && s.rx == [] && s.peers.ConnectedPeers() == {}
  }

  /** A manager fresh from its constructor. */
  ghost predicate Started(s: State) { exists s0, now, ids :: Configured(s0, now) && SlotsAllocated(s0, now, ids, s) }
}
