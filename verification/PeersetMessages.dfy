/** What the manager's message queue says.  Every step of the manager announces exactly the changes it makes to
    the set of connected peers, so a reader of the queue can always catch up with it. */
module PeersetMessages {
  import opened Reputation
  import opened Basics
  import opened PeerTable
  import opened PeersetModel

  // ----- what a message queue announces

  /** The peers counted as connected once `queue` has been carried out, starting from `wanted`. */
  function Follow(wanted: set<PeerId>, queue: seq<Message>): set<PeerId>
    decreases |queue|
  {
    if queue == [] then wanted
    else Follow(AfterMessage(wanted, queue[0]), queue[1..])
  }

  function AfterMessage(wanted: set<PeerId>, m: Message): set<PeerId> {
    match m
    case Connect(p) => wanted + {p}
    case Drop(p) => wanted - {p}
    case _ => wanted
  }

  /** Every message makes sense when its turn comes: no second Connect, no Drop of a peer not connected. */
  predicate Consistent(wanted: set<PeerId>, queue: seq<Message>)
    decreases |queue|
  {
    queue != [] ==>
      && (queue[0].Connect? || queue[0].Drop?)
      && (queue[0].Connect? <==> queue[0].peer !in wanted)
      && Consistent(AfterMessage(wanted, queue[0]), queue[1..])
  }

  function ToSet(ids: seq<PeerId>): set<PeerId> { set p | p in ids }

  lemma {:induction false} FollowConnects(wanted: set<PeerId>, ids: seq<PeerId>)
    requires Distinct(ids) && forall i :: 0 <= i < |ids| ==> ids[i] !in wanted
    ensures Consistent(wanted, ConnectAll(ids)) && Follow(wanted, ConnectAll(ids)) == wanted + ToSet(ids)
    decreases |ids|
  {
    if ids != [] {
      FollowConnects(wanted + {ids[0]}, ids[1..]);
      assert ConnectAll(ids)[1..] == ConnectAll(ids[1..]);
      assert ToSet(ids) == {ids[0]} + ToSet(ids[1..]);
    }
  }

  lemma {:induction false} FollowDrops(wanted: set<PeerId>, ids: seq<PeerId>)
    requires Distinct(ids) && forall i :: 0 <= i < |ids| ==> ids[i] in wanted
    ensures Consistent(wanted, DropAll(ids)) && Follow(wanted, DropAll(ids)) == wanted - ToSet(ids)
    decreases |ids|
  {
    if ids != [] {
      FollowDrops(wanted - {ids[0]}, ids[1..]);
      assert DropAll(ids)[1..] == DropAll(ids[1..]);
      assert ToSet(ids) == {ids[0]} + ToSet(ids[1..]);
    }
  }

  // ----- what each step of the manager announces

  /** From connected set `wanted`, the messages in `queue` explain exactly the connections in `peers`. */
  ghost predicate Explains(wanted: set<PeerId>, queue: seq<Message>, peers: Peers) {
    Consistent(wanted, queue) && Follow(wanted, queue) == peers.ConnectedPeers()
  }

  lemma AllocationExplained(s: State, now: nat, ids: seq<PeerId>, s': State)
    requires s.Ok() && s.latest <= now && s.queue == [] && SlotsAllocated(s, now, ids, s')
    ensures s'.Ok() && Explains(s.peers.ConnectedPeers(), s'.queue, s'.peers)
  {
    var t := TimeUpdated(s, now);
    DecayKeepsConnections(s.peers, SecondsSince(s, now));
    FollowConnects(s.peers.ConnectedPeers(), ids);
    assert s'.peers.ConnectedPeers() == t.peers.ConnectedPeers() + ToSet(ids);
    assert s'.queue == ConnectAll(ids);
  }

  lemma GroupKeepsConnections(peers: Peers, group: string, members: set<PeerId>)
    requires peers.GroupsKnown()
    ensures peers.WithGroup(group, members).ConnectedPeers() == peers.ConnectedPeers()
    ensures peers.WithGroup(group, members).GroupsKnown()
  {
  }

  lemma DropExplained(peers: Peers, p: PeerId)
    requires peers.Connected(p)
    ensures Explains(peers.ConnectedPeers(), [Drop(p)], peers.WithConnection(p, NotConnected))
  {
    assert peers.WithConnection(p, NotConnected).ConnectedPeers() == peers.ConnectedPeers() - {p};
    FollowDrops(peers.ConnectedPeers(), [p]);
    assert DropAll([p]) == [Drop(p)];
    assert ToSet([p]) == {p};
  }

  lemma ReportExplained(s: State, p: PeerId, change: i32, now: nat)
    requires s.Ok() && s.latest <= now && s.queue == []
    ensures var s' := Reported(s, p, change, now); s'.Ok() && Explains(s.peers.ConnectedPeers(), s'.queue, s'.peers)
  {
    var t := TimeUpdated(s, now);
    DecayKeepsConnections(s.peers, SecondsSince(s, now));
    var scored := t.peers.WithReputation(p, Saturate(t.peers.Reputation(p) + change));
    assert scored.ConnectedPeers() == t.peers.ConnectedPeers();
    if t.peers.Connected(p) && scored.Reputation(p) < BANNED_THRESHOLD {
      DropExplained(scored, p);
    }
  }

  lemma ReservedRemovalExplained(s: State, p: PeerId)
    requires s.Ok() && s.queue == []
    ensures var s' := ReservedRemoved(s, p); s'.Ok() && Explains(s.peers.ConnectedPeers(), s'.queue, s'.peers)
  {
    GroupKeepsConnections(s.peers, RESERVED_NODES, s.peers.Group(RESERVED_NODES) - {p});
    var peers := s.peers.WithGroup(RESERVED_NODES, s.peers.Group(RESERVED_NODES) - {p});
    if peers.Connected(p) && s.reservedOnly {
      DropExplained(peers, p);
    }
  }

  lemma ExpulsionExplained(peers: Peers, ids: seq<PeerId>)
    requires Expelled(peers, ids)
    ensures Explains(peers.ConnectedPeers(), DropAll(ids), Disconnected(peers, ids))
  {
    forall i | 0 <= i < |ids|
      ensures ids[i] in peers.ConnectedPeers()
    {
      assert ids[i] in ids;
    }
    FollowDrops(peers.ConnectedPeers(), ids);
    assert Disconnected(peers, ids).ConnectedPeers() == peers.ConnectedPeers() - ToSet(ids);
  }

  /** Acting on a handle action announces exactly the connections it changes. */
  lemma {:induction false} ActionExplained(s: State, now: nat, ids: seq<PeerId>, s': State)
    requires s.Ok() && s.latest <= now && Next(s, Act, now, ids, s')
    ensures s'.Ok() && s'.latest <= now && Explains(s.peers.ConnectedPeers(), s'.queue, s'.peers)
  {
    var t := s.(rx := s.rx[1..]);
    match s.rx[0]
    case AddReservedPeer(p) => GroupAllocationExplained(t, RESERVED_NODES, t.peers.Group(RESERVED_NODES) + {p}, now, ids, s');
    case RemoveReservedPeer(p) => ReservedRemovalExplained(t, p);
    case ReportPeer(p, change) => ReportExplained(t, p, change, now);
    case SetPriorityGroup(group, members) => GroupAllocationExplained(t, group, members, now, ids, s');
    case AddToPriorityGroup(group, p) => GroupAllocationExplained(t, group, t.peers.Group(group) + {p}, now, ids, s');
    case RemoveFromPriorityGroup(group, p) => GroupAllocationExplained(t, group, t.peers.Group(group) - {p}, now, ids, s');
    case SetReservedOnly(only) => ModeChangeExplained(t, only, now, ids, s');
  }

  lemma GroupAllocationExplained(s: State, group: string, members: set<PeerId>, now: nat, ids: seq<PeerId>, s': State)
    requires s.Ok() && s.latest <= now && s.queue == []
    requires SlotsAllocated(s.(peers := s.peers.WithGroup(group, members)), now, ids, s')
    ensures s'.Ok() && s'.latest <= now && Explains(s.peers.ConnectedPeers(), s'.queue, s'.peers)
  {
    GroupKeepsConnections(s.peers, group, members);
    AllocationExplained(s.(peers := s.peers.WithGroup(group, members)), now, ids, s');
  }

  lemma ModeChangeExplained(s: State, only: bool, now: nat, ids: seq<PeerId>, s': State)
    requires s.Ok() && s.latest <= now && s.queue == [] && Acted(s, SetReservedOnly(only), now, ids, s')
    ensures s'.Ok() && s'.latest <= now && Explains(s.peers.ConnectedPeers(), s'.queue, s'.peers)
  {
    var t := s.(reservedOnly := only, peers := s.peers.(priorityOnly := only));
    assert t.peers.ConnectedPeers() == s.peers.ConnectedPeers();
    if only {
      ExpulsionExplained(t.peers, ids);
      assert s'.queue == DropAll(ids);
    } else {
      AllocationExplained(t, now, ids, s');
    }
  }

  /** A dropped connection is forgotten, and replaced only by announced ones. */
  lemma DroppedExplained(s: State, p: PeerId, now: nat, ids: seq<PeerId>, s': State)
    requires s.Ok() && s.latest <= now && s.queue == [] && Next(s, Dropped(p), now, ids, s')
    ensures s'.Ok() && s'.latest <= now && Explains(s.peers.ConnectedPeers() - {p}, s'.queue, s'.peers)
  {
    var t := DroppedFirst(s, p, now);
    DecayKeepsConnections(s.peers, SecondsSince(s, now));
    assert t.peers.ConnectedPeers() == s.peers.ConnectedPeers() - {p};
    AllocationExplained(t, now, ids, s');
  }

  /** An incoming connection of a peer not connected is answered exactly once, and Accept means connected. */
  lemma IncomingExplained(s: State, p: PeerId, index: nat, now: nat)
    requires s.Ok() && s.latest <= now && s.queue == [] && !s.peers.Connected(p)
    ensures var s' := IncomingResult(s, p, index, now);
            && s'.Ok() && s'.latest <= now
            && (s'.queue == [Accept(index)] || s'.queue == [Reject(index)])
            && s'.peers.ConnectedPeers() == if s'.queue[0].Accept? then s.peers.ConnectedPeers() + {p} else s.peers.ConnectedPeers()
  {
    DecayKeepsConnections(s.peers, SecondsSince(s, now));
    var t := TimeUpdated(s, now);
    assert t.peers.Connected(p) == (p in t.peers.ConnectedPeers());
    var known := t.peers.Discovered(p);
    assert known.ConnectedPeers() == t.peers.ConnectedPeers();
    assert p in known.nodes ==> known.WithConnection(p, In).ConnectedPeers() == known.ConnectedPeers() + {p};
  }
}
