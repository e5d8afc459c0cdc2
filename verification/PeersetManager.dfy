/** The mutable peer set manager, proved against the steps of module `PeersetModel`. */
module PeersetManager {
  import opened Reputation
  import opened Basics
  import opened PeerTable
  import opened PeersetModel

  // ----- slot allocation, one dial at a time

  /** Dialling one more idle peer. */
  lemma DialledStep(peers: Peers, ids: seq<PeerId>, p: PeerId)
    requires p in peers.nodes
    ensures Dialled(peers, ids + [p]) == Dialled(peers, ids).WithConnection(p, Out)
    ensures forall q :: Dialled(peers, ids).IsPriority(q) == peers.IsPriority(q)
    ensures forall q :: Dialled(peers, ids).Idle(q) <==> peers.Idle(q) && q !in ids
    ensures forall q :: Dialled(peers, ids).Reputation(q) == peers.Reputation(q)
  {
    assert Dialled(peers, ids).groups == peers.groups;
    assert forall q :: q in ids + [p] <==> q in ids || q == p;
  }

  lemma DialledNone(peers: Peers)
    ensures Dialled(peers, []) == peers
  {
    assert Dialled(peers, []).nodes == peers.nodes;
  }

  /** Only known idle peers have been dialled so far, each once. */
  ghost predicate Picked(peers: Peers, ids: seq<PeerId>, after: Peers) {
    && after == Dialled(peers, ids)
    && Distinct(ids)
    && (forall i :: 0 <= i < |ids| ==> peers.Idle(ids[i]))
  }

  /** The first loop has dialled eligible priority peers only. */
  ghost predicate PriorityPhase(peers: Peers, reservedOnly: bool, ids: seq<PeerId>, after: Peers) {
    && Picked(peers, ids, after)
    && forall i :: 0 <= i < |ids| ==> Eligible(peers, reservedOnly, ids[i])
  }

  /** The second loop has added ordinary peers, the best first; `k` were dialled by the first. */
  ghost predicate OrdinaryPhase(peers: Peers, ids: seq<PeerId>, k: nat, after: Peers) {
    && Picked(peers, ids, after)
    && k <= |ids|
    && (forall i :: 0 <= i < k ==> peers.IsPriority(ids[i]))
    && (forall p :: peers.IsPriority(p) ==> !after.Idle(p))
    && (forall i :: k <= i < |ids| ==> !peers.IsPriority(ids[i]) && peers.Reputation(ids[i]) >= BANNED_THRESHOLD)
    && (forall i, j :: k <= i < j < |ids| ==> peers.Reputation(ids[i]) >= peers.Reputation(ids[j]))
    && (forall i, q :: k <= i < |ids| && after.Idle(q) ==> peers.Reputation(ids[i]) >= peers.Reputation(q))
    && (k < |ids| ==> after.NumOut() <= after.maxOut)
  }

  lemma PriorityPhaseStep(peers: Peers, reservedOnly: bool, ids: seq<PeerId>, after: Peers, p: PeerId)
    requires PriorityPhase(peers, reservedOnly, ids, after)
    requires after.Idle(p) && Eligible(after, reservedOnly, p)
    ensures PriorityPhase(peers, reservedOnly, ids + [p], after.WithConnection(p, Out))
    ensures after.IsPriority(p)
    ensures after.WithConnection(p, Out).IdlePeers() < after.IdlePeers()
  {
    DialledStep(peers, ids, p);
    assert after.groups == peers.groups;
    assert p in after.IdlePeers() && p !in after.WithConnection(p, Out).IdlePeers();
    if reservedOnly {
      assert RESERVED_NODES in after.groups && p in after.groups[RESERVED_NODES];
    }
  }

  lemma PriorityPhaseStart(peers: Peers, reservedOnly: bool)
    ensures PriorityPhase(peers, reservedOnly, [], peers)
  {
    DialledNone(peers);
  }

  lemma ConnectMore(first: seq<PeerId>, more: seq<PeerId>)
    ensures ConnectAll(first + more) == ConnectAll(first) + ConnectAll(more)
    ensures ConnectAll([]) == []
    ensures |more| == 1 ==> ConnectAll(more) == [Connect(more[0])]
  {
  }

  lemma OneMoreSlot(peers: Peers, p: PeerId)
    requires peers.Idle(p)
    ensures peers.WithConnection(p, Out).NumOut() <= peers.NumOut() + 1
  {
    OccupantsAfterConnection(peers, p, Out, Out);
    assert p !in peers.Occupants(Out);
  }

  lemma OrdinaryPhaseStep(peers: Peers, ids: seq<PeerId>, k: nat, after: Peers, p: PeerId)
    requires OrdinaryPhase(peers, ids, k, after)
    requires after.Idle(p) && after.Reputation(p) >= BANNED_THRESHOLD && after.NumOut() < after.maxOut
    requires forall q :: after.Idle(q) ==> after.Reputation(q) <= after.Reputation(p)
    ensures OrdinaryPhase(peers, ids + [p], k, after.WithConnection(p, Out))
    ensures after.WithConnection(p, Out).IdlePeers() < after.IdlePeers()
  {
    hide Peers.IsPriority, Peers.Occupants;
    DialledStep(peers, ids, p);
    DialledStep(peers, ids + [p], p);
    OneMoreSlot(after, p);
    assert p in after.IdlePeers() && p !in after.WithConnection(p, Out).IdlePeers();
  }

  /** In the second loop a dial is refused only when the slots are full. */
  lemma OrdinaryDial(peers: Peers, ids: seq<PeerId>, k: nat, after: Peers, p: PeerId)
    requires OrdinaryPhase(peers, ids, k, after) && !after.priorityOnly
    requires after.Idle(p) && after.Reputation(p) >= BANNED_THRESHOLD
    requires forall q :: after.Idle(q) ==> after.Reputation(q) <= after.Reputation(p)
    ensures after.MayDial(p) <==> after.NumOut() < after.maxOut
    ensures after.MayDial(p) ==> OrdinaryPhase(peers, ids + [p], k, after.WithConnection(p, Out))
    ensures after.WithConnection(p, Out).IdlePeers() < after.IdlePeers()
  {
    DialledStep(peers, ids, p);
    assert p in after.IdlePeers() && p !in after.WithConnection(p, Out).IdlePeers();
    if after.NumOut() < after.maxOut {
      OrdinaryPhaseStep(peers, ids, k, after, p);
    }
  }

  lemma ReservedPhaseDone(peers: Peers, ids: seq<PeerId>, after: Peers)
    requires PriorityPhase(peers, true, ids, after)
    requires forall p :: Eligible(after, true, p) ==> !after.Idle(p)
    ensures Allocated(peers, true, ids, after)
  {
    assert after.groups == peers.groups;
    forall i | 0 <= i < |ids|
      ensures peers.IsPriority(ids[i])
    {
      assert Eligible(peers, true, ids[i]);
      assert RESERVED_NODES in peers.groups && ids[i] in peers.groups[RESERVED_NODES];
    }
  }

  lemma OrdinaryPhaseStart(peers: Peers, ids: seq<PeerId>, after: Peers)
    requires PriorityPhase(peers, false, ids, after)
    requires forall p :: Eligible(after, false, p) ==> !after.Idle(p)
    ensures OrdinaryPhase(peers, ids, |ids|, after)
  {
    assert after.groups == peers.groups;
    assert forall p :: after.IsPriority(p) == peers.IsPriority(p);
  }

  lemma OrdinaryPhaseDone(peers: Peers, ids: seq<PeerId>, k: nat, after: Peers)
    requires OrdinaryPhase(peers, ids, k, after)
    requires after.NumOut() < after.maxOut ==> forall q :: after.Idle(q) ==> after.Reputation(q) < BANNED_THRESHOLD
    ensures Allocated(peers, false, ids, after)
  {
    forall q
      ensures after.Reputation(q) == peers.Reputation(q)
    {
    }
  }

  // ----- decay, one peer at a time

  /** Half way through a tick: the peers in `todo` still have to be ticked. */
  function HalfTicked(peers: Peers, todo: set<PeerId>): Peers {
    peers.(nodes := map p | p in peers.nodes ::
                      if p in todo then peers.nodes[p]
                      else peers.nodes[p].(reputation := ReputTick(peers.nodes[p].reputation)))
  }

  lemma HalfTickedStep(peers: Peers, todo: set<PeerId>, p: PeerId)
    requires p in todo && p in peers.nodes
    ensures HalfTicked(peers, todo).Reputation(p) == peers.Reputation(p)
    ensures HalfTicked(peers, todo).WithReputation(p, ReputTick(peers.Reputation(p))) == HalfTicked(peers, todo - {p})
  {
  }

  lemma TickDone(peers: Peers, n: nat)
    ensures HalfTicked(peers, peers.nodes.Keys) == peers
    ensures HalfTicked(Decayed(peers, n), {}) == Decayed(peers, n + 1)
    ensures Decayed(peers, 0) == peers
  {
    assert HalfTicked(peers, peers.nodes.Keys).nodes == peers.nodes;
    assert Decayed(peers, 0).nodes == peers.nodes;
    forall p | p in peers.nodes
      ensures Ticks(peers.nodes[p].reputation, n + 1) == ReputTick(Ticks(peers.nodes[p].reputation, n))
    {
      LastTick(peers.nodes[p].reputation, n);
    }
  }

  ghost predicate ActsTo(s: State, now: nat, s': State) {
    s.created <= s.latest <= now && exists ids :: Next(s, Act, now, ids, s')
  }

  /** Every action so far was taken from the handle, in order, with the message queue empty. */
  ghost predicate ActedAlong(trace: seq<State>, now: nat) {
    && |trace| > 0
    && forall i :: 0 <= i < |trace| - 1 ==> ActsTo(trace[i], now, trace[i + 1])
  }

  lemma ActedAlongStarts(s: State, now: nat)
    ensures ActedAlong([s], now)
  {
  }

  lemma ActedAlongStep(trace: seq<State>, now: nat, ids: seq<PeerId>, s: State)
    requires ActedAlong(trace, now)
    requires var last := trace[|trace| - 1]; last.created <= last.latest <= now && Next(last, Act, now, ids, s)
    ensures ActedAlong(trace + [s], now)
  {
    var longer := trace + [s];
    forall i | 0 <= i < |longer| - 1
      ensures ActsTo(longer[i], now, longer[i + 1])
    {
      if i < |trace| - 1 {
        assert longer[i] == trace[i] && longer[i + 1] == trace[i + 1];
      } else {
        assert longer[i] == trace[|trace| - 1] && longer[i + 1] == s;
      }
    }
  }

  lemma {:induction false} DiscoveredKnown(peers: Peers, ids: seq<PeerId>, p: PeerId)
    ensures DiscoveredAll(peers, ids).Known(p) <==> peers.Known(p) || p in ids
    decreases |ids|
  {
    if ids != [] {
      DiscoveredKnown(peers, ids[..|ids| - 1], p);
    }
  }

  lemma {:induction false} NothingDiscovered(peers: Peers, ids: seq<PeerId>)
    requires forall p :: p in ids ==> peers.Known(p)
    ensures DiscoveredAll(peers, ids) == peers
    decreases |ids|
  {
    if ids != [] {
      assert ids[|ids| - 1] in ids && forall p :: p in ids[..|ids| - 1] ==> p in ids;
      NothingDiscovered(peers, ids[..|ids| - 1]);
    }
  }

  /** The manager before its first slot allocation. */
  function InitialState(inPeers: nat, outPeers: nat, bootnodes: seq<PeerId>, reservedOnly: bool,
                        reservedNodes: set<PeerId>, now: nat): State
  {
    State(DiscoveredAll(EmptyPeers(inPeers, outPeers, reservedOnly).WithGroup(RESERVED_NODES, reservedNodes), bootnodes),
          reservedOnly, [], [], now, now)
  }

  lemma {:induction false} DiscoveredIdle(peers: Peers, ids: seq<PeerId>, p: PeerId)
    requires peers.GroupsKnown()
    ensures DiscoveredAll(peers, ids).Connected(p) <==> peers.Connected(p)
    ensures DiscoveredAll(peers, ids).GroupsKnown() && DiscoveredAll(peers, ids).priorityOnly == peers.priorityOnly
    decreases |ids|
  {
    if ids != [] {
      DiscoveredIdle(peers, ids[..|ids| - 1], p);
    }
  }

  lemma NobodyConnected(inPeers: nat, outPeers: nat, bootnodes: seq<PeerId>, reservedOnly: bool,
                        reservedNodes: set<PeerId>, now: nat)
    ensures Configured(InitialState(inPeers, outPeers, bootnodes, reservedOnly, reservedNodes, now), now)
  {
    var s := InitialState(inPeers, outPeers, bootnodes, reservedOnly, reservedNodes, now);
    var peers := EmptyPeers(inPeers, outPeers, reservedOnly).WithGroup(RESERVED_NODES, reservedNodes);
    DiscoveredIdle(peers, bootnodes, 0);
    forall p
      ensures !s.peers.Connected(p)
    {
      DiscoveredIdle(peers, bootnodes, p);
    }
    assert forall p :: p in s.peers.ConnectedPeers() ==> s.peers.Connected(p);
  }

  // ----- expulsion, one peer at a time

  /** `ids` are the connected peers outside the reserved group that are no longer in `todo`, and they are disconnected. */
  ghost predicate Expelling(peers: Peers, todo: set<PeerId>, ids: seq<PeerId>, after: Peers) {
    && todo <= peers.ConnectedPeers()
    && after == Disconnected(peers, ids)
    && Distinct(ids)
    && forall p :: p in ids <==> peers.Connected(p) && p !in peers.Group(RESERVED_NODES) && p !in todo
  }

  lemma ExpellingStarts(peers: Peers)
    ensures Expelling(peers, peers.ConnectedPeers(), [], peers)
  {
    assert Disconnected(peers, []).nodes == peers.nodes;
  }

  lemma ExpellingStep(peers: Peers, todo: set<PeerId>, ids: seq<PeerId>, after: Peers, p: PeerId)
    requires Expelling(peers, todo, ids, after) && p in todo
    ensures after.Connected(p)
    ensures p in peers.Group(RESERVED_NODES) ==> Expelling(peers, todo - {p}, ids, after)
    ensures p !in peers.Group(RESERVED_NODES) ==> Expelling(peers, todo - {p}, ids + [p], after.WithConnection(p, NotConnected))
  {
    assert forall q :: q in ids + [p] <==> q in ids || q == p;
    assert Disconnected(peers, ids + [p]) == Disconnected(peers, ids).WithConnection(p, NotConnected);
  }

  lemma ExpellingDone(peers: Peers, ids: seq<PeerId>, after: Peers)
    requires Expelling(peers, {}, ids, after)
    ensures Expelled(peers, ids) && after == Disconnected(peers, ids)
    ensures after.priorityOnly == peers.priorityOnly
  {
  }

  lemma DropMore(ids: seq<PeerId>, p: PeerId)
    ensures DropAll(ids + [p]) == DropAll(ids) + [Drop(p)]
    ensures DropAll([]) == []
  {
  }

  class Peerset {
    const data: PeersState
    var reservedOnly: bool
    var rx: seq<Action>
    var messageQueue: seq<Message>
    const created: nat
    var latestTimeUpdate: nat

    function View(): State
      reads this, data
    {
      State(data.View(), reservedOnly, rx, messageQueue, created, latestTimeUpdate)
    }

    ghost predicate Valid()
      reads this, data
    {
      data.Valid() && View().Ok()
    }

    /** A new manager from its configuration. */
    constructor (inPeers: nat, outPeers: nat, bootnodes: seq<PeerId>, reservedOnly: bool, reservedNodes: set<PeerId>, now: nat)
      ensures Valid() && fresh(data)
      ensures Started(View())
      ensures exists ids :: SlotsAllocated(InitialState(inPeers, outPeers, bootnodes, reservedOnly, reservedNodes, now), now, ids, View())
    {
      data := new PeersState(inPeers, outPeers, reservedOnly);
      this.reservedOnly := reservedOnly;
      rx, messageQueue := [], [];
      created, latestTimeUpdate := now, now;
      new;
      data.SetPriorityGroup(RESERVED_NODES, reservedNodes);
      var _ := DiscoverUnknown(bootnodes);
      ghost var ids := AllocSlots(now);
      ghost var initial := InitialState(inPeers, outPeers, bootnodes, reservedOnly, reservedNodes, now);
      assert SlotsAllocated(initial, now, ids, View());
      NobodyConnected(inPeers, outPeers, bootnodes, reservedOnly, reservedNodes, now);
    }

    /** Inserts the peers not known yet. */
    method DiscoverUnknown(ids: seq<PeerId>) returns (any: bool)
      requires Valid()
      modifies data
      ensures Valid() && data.View() == DiscoveredAll(old(data.View()), ids)
      ensures any <==> exists p :: p in ids && !old(data.View()).Known(p)
    {
      any := false;
      for i := 0 to |ids|
        invariant Valid() && data.View() == DiscoveredAll(old(data.View()), ids[..i])
        invariant any <==> exists p :: p in ids[..i] && !old(data.View()).Known(p)
      {
        assert ids[..i + 1][..i] == ids[..i];
        DiscoveredKnown(old(data.View()), ids[..i], ids[i]);
        if ids[i] !in data.nodes {
          data.Discover(ids[i]);
          any := true;
        }
      }
      assert ids[..|ids|] == ids;
    }

    /** Applies one tick to every known peer. */
    method TickAll()
      requires Valid()
      modifies data
      ensures Valid() && data.View() == HalfTicked(old(data.View()), {})
    {
      ghost var before := data.View();
      var todo := data.nodes.Keys;
      TickDone(before, 0);
      while todo != {}
        invariant todo <= before.nodes.Keys
        invariant data.Valid() && data.View() == HalfTicked(before, todo)
        decreases todo
      {
        var p :| p in todo;
        HalfTickedStep(before, todo, p);
        data.SetReputation(p, ReputTick(data.View().Reputation(p)));
        todo := todo - {p};
      }
    }

    /** Brings reputations up to date. */
    method UpdateTime(now: nat)
      requires Valid() && latestTimeUpdate <= now
      modifies this`latestTimeUpdate, data
      ensures Valid() && View() == TimeUpdated(old(View()), now)
    {
      var secs := SecondsSince(View(), now);
      ghost var before := data.View();
      latestTimeUpdate := now;
      TickDone(before, 0);
      for k := 0 to secs
        invariant Valid() && latestTimeUpdate == now && data.View() == Decayed(before, k)
      {
        TickAll();
        TickDone(before, k);
      }
    }

    /** Dials the priority peers, then the best of the others while there are slots. */
    method AllocSlots(now: nat) returns (ghost ids: seq<PeerId>)
      requires Valid() && latestTimeUpdate <= now
      modifies this`latestTimeUpdate, this`messageQueue, data
      ensures Valid() && latestTimeUpdate == now && SlotsAllocated(old(View()), now, ids, View())
    {
      hide Allocated, PriorityPhase, OrdinaryPhase, Decayed, ConnectAll, Peers.NumIn, Peers.NumOut, Peers.GroupsKnown;
      UpdateTime(now);
      ghost var peers := data.View();
      ids := AllocPriority();
      if reservedOnly {
        ReservedPhaseDone(peers, ids, data.View());
      } else {
        OrdinaryPhaseStart(peers, ids, data.View());
        ghost var first := ids;
        ids := AllocOrdinary(peers, ids);
        ConnectMore(first, ids[|first|..]);
        assert first + ids[|first|..] == ids;
      }
    }

    method AllocPriority() returns (ghost ids: seq<PeerId>)
      requires Valid()
      modifies this`messageQueue, data
      ensures Valid() && messageQueue == old(messageQueue) + ConnectAll(ids)
      ensures PriorityPhase(old(data.View()), reservedOnly, ids, data.View())
      ensures forall p :: Eligible(data.View(), reservedOnly, p) ==> !data.View().Idle(p)
    {
      hide PriorityPhase, ConnectAll, Peers.NumIn, Peers.NumOut, Peers.GroupsKnown;
      ids := [];
      PriorityPhaseStart(data.View(), reservedOnly);
      ConnectMore([], []);
      while true
        invariant Valid() && messageQueue == old(messageQueue) + ConnectAll(ids)
        invariant PriorityPhase(old(data.View()), reservedOnly, ids, data.View())
        decreases data.View().IdlePeers()
      {
        var next: Option<PeerId>;
        if reservedOnly {
          next := data.PriorityNotConnectedPeerFromGroup(RESERVED_NODES);
        } else {
          next := data.PriorityNotConnectedPeer();
        }
        if next.None? {
          return;
        }
        PriorityPhaseStep(old(data.View()), reservedOnly, ids, data.View(), next.value);
        var ok := data.TryOutgoing(next.value);
        assert ok;
        ConnectMore(ids, [next.value]);
        messageQueue := messageQueue + [Connect(next.value)];
        ids := ids + [next.value];
      }
    }

    method AllocOrdinary(ghost peers: Peers, ghost first: seq<PeerId>) returns (ghost ids: seq<PeerId>)
      requires Valid() && !reservedOnly && OrdinaryPhase(peers, first, |first|, data.View())
      modifies this`messageQueue, data
      ensures Valid() && first <= ids && messageQueue == old(messageQueue) + ConnectAll(ids[|first|..])
      ensures Allocated(peers, false, ids, data.View())
    {
      hide OrdinaryPhase, Allocated, ConnectAll, Peers.GroupsKnown;
      ids := first;
      ConnectMore([], []);
      assert first[|first|..] == [];
      while true
        invariant Valid() && first <= ids && messageQueue == old(messageQueue) + ConnectAll(ids[|first|..])
        invariant OrdinaryPhase(peers, ids, |first|, data.View())
        decreases data.View().IdlePeers()
      {
        var next := data.HighestNotConnectedPeer();
        if next.None? || data.View().Reputation(next.value) < BANNED_THRESHOLD {
          OrdinaryPhaseDone(peers, ids, |first|, data.View());
          return;
        }
        ghost var before := data.View();
        var ok := data.TryOutgoing(next.value);
        OrdinaryDial(peers, ids, |first|, before, next.value);
        if !ok {
          OrdinaryPhaseDone(peers, ids, |first|, data.View());
          return;
        }
        ConnectMore(ids[|first|..], [next.value]);
        assert (ids + [next.value])[|first|..] == ids[|first|..] + [next.value];
        messageQueue := messageQueue + [Connect(next.value)];
        ids := ids + [next.value];
      }
    }

    /** An incoming connection: answered with Accept or Reject, unless the peer already counts as connected. */
    method Incoming(p: PeerId, index: nat, now: nat)
      requires Valid() && latestTimeUpdate <= now
      modifies this`latestTimeUpdate, this`messageQueue, data
      ensures Valid() && latestTimeUpdate <= now && View() == IncomingResult(old(View()), p, index, now)
    {
      UpdateTime(now);
      if data.View().Connected(p) {
        return;
      }
      if p !in data.nodes {
        data.Discover(p);
      }
      if data.View().Reputation(p) < BANNED_THRESHOLD {
        messageQueue := messageQueue + [Reject(index)];
        return;
      }
      var ok := data.TryAcceptIncoming(p);
      messageQueue := messageQueue + [if ok then Accept(index) else Reject(index)];
    }

    /** A connection was dropped, or could not be made. */
    method Dropped(p: PeerId, now: nat) returns (ghost ids: seq<PeerId>)
      requires Valid() && latestTimeUpdate <= now
      modifies this`latestTimeUpdate, this`messageQueue, data
      ensures Valid() && latestTimeUpdate <= now && rx == old(rx) && Next(old(View()), Op.Dropped(p), now, ids, View())
    {
      Release(p, now);
      ids := AllocSlots(now);
    }

    /** Lowers the score of a lost peer and frees its slot. */
    method Release(p: PeerId, now: nat)
      requires Valid() && latestTimeUpdate <= now
      modifies this`latestTimeUpdate, data
      ensures Valid() && View() == DroppedFirst(old(View()), p, now)
    {
      UpdateTime(now);
      if data.View().Connected(p) {
        data.AddReputation(p, DISCONNECT_REPUTATION_CHANGE);
        data.Disconnect(p);
      }
    }

    /** Adds discovered peers. */
    method Discovered(found: seq<PeerId>, now: nat) returns (ghost ids: seq<PeerId>)
      requires Valid() && latestTimeUpdate <= now
      modifies this`latestTimeUpdate, this`messageQueue, data
      ensures Valid() && latestTimeUpdate <= now && Next(old(View()), Discover(found), now, ids, View())
    {
      var any := DiscoverUnknown(found);
      ids := [];
      if any {
        ids := AllocSlots(now);
      } else {
        NothingDiscovered(old(data.View()), found);
      }
    }

    method OnSetReservedOnly(only: bool, now: nat) returns (ghost ids: seq<PeerId>)
      requires Valid() && latestTimeUpdate <= now
      modifies this`reservedOnly, this`latestTimeUpdate, this`messageQueue, data
      ensures Valid() && latestTimeUpdate <= now && Acted(old(View()), SetReservedOnly(only), now, ids, View())
    {
      reservedOnly := only;
      data.SetPriorityOnly(only);
      if reservedOnly {
        ids := Expel();
      } else {
        ids := AllocSlots(now);
      }
    }

    /** Disconnects every connected peer outside the reserved group. */
    method Expel() returns (ghost ids: seq<PeerId>)
      requires Valid()
      modifies this`messageQueue, data
      ensures Valid() && Expelled(old(data.View()), ids) && data.View() == Disconnected(old(data.View()), ids)
      ensures messageQueue == old(messageQueue) + DropAll(ids)
    {
      hide Expelling, Expelled, Disconnected, DropAll, Peers.NumIn, Peers.NumOut, Peers.GroupsKnown;
      var peers := data.View();
      var reserved := peers.Group(RESERVED_NODES);
      var todo := peers.ConnectedPeers();
      ids := [];
      ExpellingStarts(peers);
      DropMore([], 0);
      while todo != {}
        invariant data.Valid() && Expelling(peers, todo, ids, data.View())
        invariant messageQueue == old(messageQueue) + DropAll(ids)
        decreases todo
      {
        var p :| p in todo;
        ExpellingStep(peers, todo, ids, data.View(), p);
        if p !in reserved {
          data.Disconnect(p);
          DropMore(ids, p);
          messageQueue := messageQueue + [Drop(p)];
          ids := ids + [p];
        }
        todo := todo - {p};
      }
      ExpellingDone(peers, ids, data.View());
    }

    method OnReportPeer(p: PeerId, change: i32, now: nat)
      requires Valid() && latestTimeUpdate <= now
      modifies this`latestTimeUpdate, this`messageQueue, data
      ensures Valid() && latestTimeUpdate == now && View() == Reported(old(View()), p, change, now)
    {
      UpdateTime(now);
      var connected := data.View().Connected(p);
      data.AddReputation(p, change);
      if connected && data.View().Reputation(p) < BANNED_THRESHOLD {
        data.Disconnect(p);
        messageQueue := messageQueue + [Drop(p)];
      }
    }

    method OnRemoveReservedPeer(p: PeerId)
      requires Valid()
      modifies this`messageQueue, data
      ensures Valid() && View() == ReservedRemoved(old(View()), p)
    {
      data.SetPriorityGroup(RESERVED_NODES, data.View().Group(RESERVED_NODES) - {p});
      if data.View().Connected(p) && reservedOnly {
        data.Disconnect(p);
        messageQueue := messageQueue + [Drop(p)];
      }
    }

    method Handle(action: Action, now: nat) returns (ghost ids: seq<PeerId>)
      requires Valid() && latestTimeUpdate <= now
      modifies this`reservedOnly, this`latestTimeUpdate, this`messageQueue, data
      ensures Valid() && latestTimeUpdate <= now && Acted(old(View()), action, now, ids, View())
    {
      hide SlotsAllocated, Reported, ReservedRemoved, Peers.NumIn, Peers.NumOut, Peers.GroupsKnown;
      ids := [];
      match action
      case AddReservedPeer(p) =>
        data.SetPriorityGroup(RESERVED_NODES, data.View().Group(RESERVED_NODES) + {p});
        ids := AllocSlots(now);
      case RemoveReservedPeer(p) =>
        OnRemoveReservedPeer(p);
      case SetReservedOnly(only) =>
        ids := OnSetReservedOnly(only, now);
      case ReportPeer(p, change) =>
        OnReportPeer(p, change, now);
      case SetPriorityGroup(group, peers) =>
        data.SetPriorityGroup(group, peers);
        ids := AllocSlots(now);
      case AddToPriorityGroup(group, p) =>
        data.AddToPriorityGroup(group, p);
        ids := AllocSlots(now);
      case RemoveFromPriorityGroup(group, p) =>
        data.RemoveFromPriorityGroup(group, p);
        ids := AllocSlots(now);
    }

    /** The next message, after acting on as many handle actions as needed; None when there is nothing left to do. */
    method PollNext(now: nat) returns (r: Option<Message>, ghost trace: seq<State>)
      requires Valid() && latestTimeUpdate <= now
      modifies this, data
      ensures Valid() && latestTimeUpdate <= now
      ensures |trace| > 0 && ActedAlong(trace, now) && trace[0] == old(View())
      ensures |rx| < |old(rx)| || (rx == old(rx) && |trace| == 1)
      ensures var last := trace[|trace| - 1];
              last.created <= last.latest <= now &&
              match r
              case Some(m) => last.queue != [] && m == last.queue[0] && View() == last.(queue := last.queue[1..])
              case None => last == View() && View().queue == [] && View().rx == []
    {
      hide Acted, ActedAlong, Peers.NumIn, Peers.NumOut, Peers.GroupsKnown;
      trace := [View()];
      ActedAlongStarts(View(), now);
      while true
        invariant Valid() && latestTimeUpdate <= now
        invariant |trace| > 0 && ActedAlong(trace, now) && trace[0] == old(View()) && trace[|trace| - 1] == View()
        invariant |rx| < |old(rx)| || (rx == old(rx) && |trace| == 1)
        decreases |rx|
      {
        if messageQueue != [] {
          r := Some(messageQueue[0]);
          messageQueue := messageQueue[1..];
          return;
        }
        if rx == [] {
          return None, trace;
        }
        var action := rx[0];
        rx := rx[1..];
        ghost var ids := Handle(action, now);
        ActedAlongStep(trace, now, ids, View());
        trace := trace + [View()];
      }
    }

    /** Queues a reputation report behind the actions sent by handles. */
    method ReportPeer(p: PeerId, change: i32)
      requires Valid()
      modifies this`rx
      ensures Valid() && View() == old(View()).(rx := old(rx) + [Action.ReportPeer(p, change)])
    {
      rx := rx + [Action.ReportPeer(p, change)];
    }
  }
}
