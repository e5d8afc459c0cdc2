/** Whom the peer set manager lets in and whom it puts out, over every run. */
module PeersetPolicy {
  import opened Reputation
  import opened Basics
  import opened PeerTable
  import opened PeersetModel
  import opened PeersetMessages
  import opened PeersetRuns

  predicate IsBanned(peers: Peers, p: PeerId) { peers.Reputation(p) < BANNED_THRESHOLD }

  /** Nobody who is connected by its own doing is banned. */
  ghost predicate InboundGood(peers: Peers) {
    forall p :: p in peers.nodes && peers.nodes[p].connection == In ==> !IsBanned(peers, p)
  }

  /** Every Connect newly queued is for a peer that is not banned, or has priority. */
  ghost predicate ConnectsGood(s: State, s': State) {
    forall i :: |s.queue| <= i < |s'.queue| && s'.queue[i].Connect? ==>
      !IsBanned(s'.peers, s'.queue[i].peer) || s'.peers.IsPriority(s'.queue[i].peer)
  }

  /** As time passes nobody becomes banned. */
  lemma DecayGood(peers: Peers, n: nat)
    ensures forall p :: IsBanned(Decayed(peers, n), p) ==> IsBanned(peers, p)
    ensures InboundGood(peers) ==> InboundGood(Decayed(peers, n))
  {
    forall p | !IsBanned(peers, p) ensures !IsBanned(Decayed(peers, n), p) {
      TicksAboveThreshold(peers.Reputation(p), n);
    }
  }

  lemma AllocationGood(s: State, now: nat, ids: seq<PeerId>, s': State)
    requires s.Ok() && s.latest <= now && SlotsAllocated(s, now, ids, s') && InboundGood(s.peers)
    ensures InboundGood(s'.peers) && ConnectsGood(s, s')
  {
    var t := TimeUpdated(s, now);
    DecayGood(s.peers, SecondsSince(s, now));
    assert s'.peers.groups == t.peers.groups;
    forall i | |s.queue| <= i < |s'.queue| && s'.queue[i].Connect?
      ensures !IsBanned(s'.peers, s'.queue[i].peer) || s'.peers.IsPriority(s'.queue[i].peer)
    {
      var p := ids[i - |s.queue|];
      assert s'.queue[i].peer == p && t.peers.Idle(p);
      assert s'.peers.Reputation(p) == t.peers.Reputation(p);
      assert s'.peers.IsPriority(p) == t.peers.IsPriority(p);
    }
  }

  lemma GroupGood(peers: Peers, group: string, members: set<PeerId>)
    requires InboundGood(peers)
    ensures InboundGood(peers.WithGroup(group, members))
  {
  }

  lemma RegroupGood(s: State, group: string, members: set<PeerId>, now: nat, ids: seq<PeerId>, s': State)
    requires s.Ok() && s.latest <= now && InboundGood(s.peers)
    requires SlotsAllocated(s.(peers := s.peers.WithGroup(group, members)), now, ids, s')
    ensures InboundGood(s'.peers) && ConnectsGood(s, s')
  {
    hide SlotsAllocated;
    GroupGood(s.peers, group, members);
    GroupKeepsConnections(s.peers, group, members);
    AllocationGood(s.(peers := s.peers.WithGroup(group, members)), now, ids, s');
  }

  lemma IncomingGood(s: State, p: PeerId, index: nat, now: nat)
    requires s.Ok() && s.latest <= now && InboundGood(s.peers)
    ensures var s' := IncomingResult(s, p, index, now); InboundGood(s'.peers) && ConnectsGood(s, s')
  {
    DecayGood(s.peers, SecondsSince(s, now));
  }

  lemma {:induction false} DiscoveryGood(peers: Peers, found: seq<PeerId>)
    requires InboundGood(peers)
    ensures InboundGood(DiscoveredAll(peers, found))
    decreases |found|
  {
    if found != [] {
      DiscoveryGood(peers, found[..|found| - 1]);
    }
  }

  lemma DropGood(s: State, p: PeerId, now: nat)
    requires s.Ok() && s.latest <= now && InboundGood(s.peers)
    ensures DroppedFirst(s, p, now).Ok() && InboundGood(DroppedFirst(s, p, now).peers)
  {
    DecayGood(s.peers, SecondsSince(s, now));
  }

  lemma ReportGood(s: State, p: PeerId, change: i32, now: nat)
    requires s.Ok() && s.latest <= now && InboundGood(s.peers)
    ensures var s' := Reported(s, p, change, now); InboundGood(s'.peers) && ConnectsGood(s, s')
  {
    DecayGood(s.peers, SecondsSince(s, now));
  }

  lemma ModeChangeGood(s: State, only: bool, now: nat, ids: seq<PeerId>, s': State)
    requires s.Ok() && s.latest <= now && InboundGood(s.peers) && Acted(s, SetReservedOnly(only), now, ids, s')
    ensures InboundGood(s'.peers) && ConnectsGood(s, s')
  {
    hide Allocated;
    var t := s.(reservedOnly := only, peers := s.peers.(priorityOnly := only));
    if !only {
      AllocationGood(t, now, ids, s');
    }
  }

  lemma ActGood(s: State, l: Label, s': State)
    requires s.Ok() && Steps(s, l, s') && l.op.Act? && InboundGood(s.peers)
    ensures InboundGood(s'.peers) && ConnectsGood(s, s')
  {
    hide SlotsAllocated, Reported, Peers.WithGroup, InboundGood, ReservedRemoved;
    var t := s.(rx := s.rx[1..]);
    match s.rx[0]
    case AddReservedPeer(p) => RegroupGood(t, RESERVED_NODES, t.peers.Group(RESERVED_NODES) + {p}, l.now, l.ids, s');
    case AddToPriorityGroup(group, p) => RegroupGood(t, group, t.peers.Group(group) + {p}, l.now, l.ids, s');
    case SetPriorityGroup(group, members) => RegroupGood(t, group, members, l.now, l.ids, s');
    case RemoveFromPriorityGroup(group, p) => RegroupGood(t, group, t.peers.Group(group) - {p}, l.now, l.ids, s');
    case RemoveReservedPeer(p) => RemovalGood(t, p);
    case ReportPeer(p, change) => ReportGood(t, p, change, l.now);
    case SetReservedOnly(only) => ModeChangeGood(t, only, l.now, l.ids, s');
  }

  lemma RemovalGood(s: State, p: PeerId)
    requires InboundGood(s.peers)
    ensures InboundGood(ReservedRemoved(s, p).peers) && ConnectsGood(s, ReservedRemoved(s, p))
  {
    GroupGood(s.peers, RESERVED_NODES, s.peers.Group(RESERVED_NODES) - {p});
  }

  lemma StepGood(s: State, l: Label, s': State)
    requires s.Ok() && Steps(s, l, s') && InboundGood(s.peers)
    ensures InboundGood(s'.peers) && ConnectsGood(s, s')
  {
    hide SlotsAllocated, DroppedFirst, DiscoveredAll, IncomingResult, Acted;
    match l.op
    case Incoming(p, index) => IncomingGood(s, p, index, l.now);
    case Dropped(p) =>
      DropGood(s, p, l.now);
      DropKeepsQueue(s, p, l.now);
      AllocationGood(DroppedFirst(s, p, l.now), l.now, l.ids, s');
    case Discover(found) =>
      if s' != s {
        DiscoveryGood(s.peers, found);
        DiscoveryOk(s, found);
        AllocationGood(s.(peers := DiscoveredAll(s.peers, found)), l.now, l.ids, s');
      }
    case Send(_) =>
    case Take =>
    case Act => ActGood(s, l, s');
  }

  lemma DropKeepsQueue(s: State, p: PeerId, now: nat)
    requires s.Ok() && s.latest <= now
    ensures DroppedFirst(s, p, now).queue == s.queue && DroppedFirst(s, p, now).latest == now
  {
  }

  lemma DiscoveryOk(s: State, found: seq<PeerId>)
    requires s.Ok()
    ensures s.(peers := DiscoveredAll(s.peers, found)).Ok()
  {
    DiscoveryShrinks(s.peers, found);
  }

  /** Over any run nobody is banned who is connected by its own doing, and only peers that are not banned, or have priority,
      are told to be connected to. */
  lemma {:induction false} BannedStayOut(states: seq<State>, labels: seq<Label>, k: nat)
    requires IsRun(states, labels) && k <= |labels|
    ensures InboundGood(states[k].peers)
    ensures k > 0 ==> ConnectsGood(states[k - 1], states[k])
    decreases k
  {
    hide InboundGood, ConnectsGood, Next, Started;
    if k == 0 {
      StartGood(states[0]);
    } else {
      BannedStayOut(states, labels, k - 1);
      OverdraftOnlyByDemotion(states, labels, k - 1);
      assert Steps(states[k - 1], labels[k - 1], states[k - 1 + 1]);
      StepGood(states[k - 1], labels[k - 1], states[k]);
    }
  }

  lemma StartGood(s: State)
    requires Started(s)
    ensures InboundGood(s.peers)
  {
    var s0, now, ids :| Configured(s0, now) && SlotsAllocated(s0, now, ids, s);
    forall p | p in s0.peers.nodes ensures s0.peers.nodes[p].connection != In {
      assert p !in s0.peers.ConnectedPeers();
    }
    AllocationGood(s0, now, ids, s);
  }

  /** Who asks to be connected: not answered if it counts as connected; accepted if it is not banned and either has
      priority or finds a free slot outside reserved-only mode; and rejected otherwise. */
  lemma IncomingCondition(s: State, p: PeerId, index: nat, now: nat)
    requires s.Ok() && s.latest <= now
    ensures var t, s' := TimeUpdated(s, now).peers, IncomingResult(s, p, index, now);
            var welcome := !IsBanned(t, p) && (s.peers.IsPriority(p) || (!s.reservedOnly && s.peers.NumIn() < s.peers.maxIn));
            && s'.queue == s.queue + (if s.peers.Connected(p) then [] else if welcome then [Accept(index)] else [Reject(index)])
            && (s'.peers.Connected(p) <==> s.peers.Connected(p) || welcome)
  {
    var t := TimeUpdated(s, now).peers;
    DecayKeepsConnections(s.peers, SecondsSince(s, now));
    assert s.peers.Connected(p) <==> p in s.peers.ConnectedPeers();
    assert t.Connected(p) <==> p in t.ConnectedPeers();
    OccupantsAfterReputation(t, p, 0, In);
    assert t.Discovered(p).IsPriority(p) == t.IsPriority(p);
  }

  // ----- reports

  /** A report changes the score of that peer only, and puts it out if it is connected and now banned. */
  lemma ReportOutcome(s: State, p: PeerId, change: i32, now: nat, q: PeerId)
    requires s.Ok() && s.latest <= now
    ensures var t, s' := TimeUpdated(s, now).peers, Reported(s, p, change, now);
            && s'.peers.Reputation(q) == (if q == p then Saturate(t.Reputation(p) + change) else t.Reputation(q))
            && !(s'.peers.Connected(p) && IsBanned(s'.peers, p))
            && (s'.peers.Connected(q) <==> s.peers.Connected(q) && !(q == p && IsBanned(s'.peers, p)))
            && s'.queue == s.queue + if s.peers.Connected(p) && IsBanned(s'.peers, p) then [Drop(p)] else []
  {
    DecayKeepsConnections(s.peers, SecondsSince(s, now));
    assert forall x :: s.peers.Connected(x) <==> x in s.peers.ConnectedPeers();
    assert forall x :: TimeUpdated(s, now).peers.Connected(x) <==> x in TimeUpdated(s, now).peers.ConnectedPeers();
  }

  /** A connection that is lost costs ten points. */
  lemma DropOutcome(s: State, p: PeerId, now: nat, q: PeerId)
    requires s.Ok() && s.latest <= now
    ensures var t, s' := TimeUpdated(s, now).peers, DroppedFirst(s, p, now);
            && s'.peers.Reputation(q) == (if q == p && s.peers.Connected(p) then Saturate(t.Reputation(p) - 10) else t.Reputation(q))
            && (s'.peers.Connected(q) <==> s.peers.Connected(q) && q != p)
            && s'.queue == s.queue && s'.peers.groups == s.peers.groups
  {
    DecayKeepsConnections(s.peers, SecondsSince(s, now));
    assert forall x :: s.peers.Connected(x) <==> x in s.peers.ConnectedPeers();
    assert forall x :: TimeUpdated(s, now).peers.Connected(x) <==> x in TimeUpdated(s, now).peers.ConnectedPeers();
  }

  /** Peers met for the first time start at zero, and nobody else's score changes. */
  lemma ScoresKept(peers: Peers, group: string, members: set<PeerId>, p: PeerId, q: PeerId)
    ensures peers.WithGroup(group, members).Reputation(q) == peers.Reputation(q)
    ensures peers.Discovered(p).Reputation(q) == peers.Reputation(q)
    ensures peers.WithConnection(p, Out).Reputation(q) == peers.Reputation(q)
  {
  }

  // ----- who is put out

  /** Why a step takes the connection of `p` away: it was lost, the peer fell below the threshold, or reserved-only mode has
      no place for it. */
  predicate IsPutOut(s: State, l: Label, p: PeerId) {
    match l.op
    case Dropped(q) => q == p
    case Act =>
      s.rx != [] &&
      (match s.rx[0]
       case RemoveReservedPeer(q) => q == p && s.reservedOnly
       case SetReservedOnly(only) => only && p !in s.peers.Group(RESERVED_NODES)
       case ReportPeer(q, change) =>
         q == p && s.created <= s.latest <= l.now
         && Saturate(TimeUpdated(s, l.now).peers.Reputation(p) + change) < BANNED_THRESHOLD
       case _ => false)
    case _ => false
  }

  lemma AllocationPutsOutNobody(s: State, now: nat, ids: seq<PeerId>, s': State, p: PeerId)
    requires s.Ok() && s.latest <= now && SlotsAllocated(s, now, ids, s') && s.peers.Connected(p)
    ensures s'.peers.Connected(p)
  {
    DecayKeepsConnections(s.peers, SecondsSince(s, now));
    assert p in s.peers.ConnectedPeers();
    assert p in TimeUpdated(s, now).peers.ConnectedPeers();
  }

  lemma RegroupPutsOutNobody(s: State, group: string, members: set<PeerId>, now: nat, ids: seq<PeerId>, s': State, p: PeerId)
    requires s.Ok() && s.latest <= now && s.peers.Connected(p)
    requires SlotsAllocated(s.(peers := s.peers.WithGroup(group, members)), now, ids, s')
    ensures s'.peers.Connected(p)
  {
    hide SlotsAllocated;
    GroupKeepsConnections(s.peers, group, members);
    assert s.peers.WithGroup(group, members).Connected(p);
    AllocationPutsOutNobody(s.(peers := s.peers.WithGroup(group, members)), now, ids, s', p);
  }

  lemma ModeChangePutsOut(s: State, only: bool, now: nat, ids: seq<PeerId>, s': State, p: PeerId)
    requires s.Ok() && s.latest <= now && s.peers.Connected(p) && Acted(s, SetReservedOnly(only), now, ids, s')
    ensures !s'.peers.Connected(p) <==> only && p !in s.peers.Group(RESERVED_NODES)
  {
    var t := s.(reservedOnly := only, peers := s.peers.(priorityOnly := only));
    assert t.peers.Connected(p);
    if !only {
      hide SlotsAllocated;
      AllocationPutsOutNobody(t, now, ids, s', p);
    }
  }

  lemma RemovalPutsOut(s: State, q: PeerId, p: PeerId)
    requires s.peers.Connected(p)
    ensures !ReservedRemoved(s, q).peers.Connected(p) <==> q == p && s.reservedOnly
  {
  }

  lemma ActPutsOut(s: State, l: Label, s': State, p: PeerId)
    requires s.Ok() && Steps(s, l, s') && l.op.Act? && s.peers.Connected(p)
    ensures !s'.peers.Connected(p) <==> IsPutOut(s, l, p)
  {
    hide SlotsAllocated, Reported, ReservedRemoved, Peers.WithGroup, Peers.Connected, Decayed, Expelled, Disconnected;
    var t := s.(rx := s.rx[1..]);
    match s.rx[0]
    case AddReservedPeer(q) => RegroupPutsOutNobody(t, RESERVED_NODES, t.peers.Group(RESERVED_NODES) + {q}, l.now, l.ids, s', p);
    case AddToPriorityGroup(group, q) => RegroupPutsOutNobody(t, group, t.peers.Group(group) + {q}, l.now, l.ids, s', p);
    case SetPriorityGroup(group, members) => RegroupPutsOutNobody(t, group, members, l.now, l.ids, s', p);
    case RemoveFromPriorityGroup(group, q) => RegroupPutsOutNobody(t, group, t.peers.Group(group) - {q}, l.now, l.ids, s', p);
    case RemoveReservedPeer(q) => RemovalPutsOut(t, q, p);
    case ReportPeer(q, change) =>
      ReportOutcome(t, q, change, l.now, p);
      ReportOutcome(t, q, change, l.now, q);
    case SetReservedOnly(only) => ModeChangePutsOut(t, only, l.now, l.ids, s', p);
  }

  /** Exactly which connections a step takes away.  A peer whose connection was lost may be chosen again at once. */
  lemma WhoIsPutOut(s: State, l: Label, s': State, p: PeerId)
    requires s.Ok() && Steps(s, l, s') && s.peers.Connected(p)
    ensures l.op == Dropped(p) ==> s'.peers.Connected(p) == (p in l.ids)
    ensures l.op != Dropped(p) ==> (!s'.peers.Connected(p) <==> IsPutOut(s, l, p))
  {
    hide SlotsAllocated, Acted;
    match l.op
    case Incoming(q, index) => IncomingPutsOutNobody(s, q, index, l.now, p);
    case Dropped(q) =>
      DropOutcome(s, q, l.now, p);
      DropIsOk(s, q, l.now);
      if p != q {
        AllocationPutsOutNobody(DroppedFirst(s, q, l.now), l.now, l.ids, s', p);
      } else {
        ChosenAgain(DroppedFirst(s, q, l.now), l.now, l.ids, s', p);
      }
    case Discover(found) =>
      if s' != s {
        DiscoveryOk(s, found);
        DiscoveryKeepsConnected(s.peers, found, p);
        AllocationPutsOutNobody(s.(peers := DiscoveredAll(s.peers, found)), l.now, l.ids, s', p);
      }
    case Send(_) =>
    case Take =>
    case Act => ActPutsOut(s, l, s', p);
  }

  lemma DropIsOk(s: State, p: PeerId, now: nat)
    requires s.Ok() && s.latest <= now
    ensures DroppedFirst(s, p, now).Ok() && DroppedFirst(s, p, now).latest <= now
  {
  }

  lemma IncomingPutsOutNobody(s: State, q: PeerId, index: nat, now: nat, p: PeerId)
    requires s.Ok() && s.latest <= now && s.peers.Connected(p)
    ensures IncomingResult(s, q, index, now).peers.Connected(p)
  {
    DecayKeepsConnections(s.peers, SecondsSince(s, now));
    assert p in s.peers.ConnectedPeers();
    assert p in TimeUpdated(s, now).peers.ConnectedPeers();
  }

  lemma {:induction false} DiscoveryKeepsConnected(peers: Peers, found: seq<PeerId>, p: PeerId)
    requires peers.Connected(p)
    ensures DiscoveredAll(peers, found).Connected(p)
    decreases |found|
  {
    if found != [] {
      DiscoveryKeepsConnected(peers, found[..|found| - 1], p);
    }
  }

  lemma ChosenAgain(s: State, now: nat, ids: seq<PeerId>, s': State, p: PeerId)
    requires s.Ok() && s.latest <= now && SlotsAllocated(s, now, ids, s') && !s.peers.Connected(p)
    ensures s'.peers.Connected(p) == (p in ids)
  {
    DecayKeepsConnections(s.peers, SecondsSince(s, now));
    assert s.peers.Connected(p) <==> p in s.peers.ConnectedPeers();
    assert TimeUpdated(s, now).peers.Connected(p) <==> p in TimeUpdated(s, now).peers.ConnectedPeers();
  }

  // ----- who is let in

  /** Nobody who is to be connected is left idle: no eligible priority peer, and no ordinary one that is not banned while
      there is a free slot. */
  ghost predicate Filled(s: State) {
    && (forall p :: Eligible(s.peers, s.reservedOnly, p) ==> !s.peers.Idle(p))
    && (!s.reservedOnly && s.peers.NumOut() < s.peers.maxOut ==> forall p :: s.peers.Idle(p) ==> IsBanned(s.peers, p))
  }

  lemma AllocationFills(s: State, now: nat, ids: seq<PeerId>, s': State)
    requires s.Ok() && s.latest <= now && SlotsAllocated(s, now, ids, s')
    ensures Filled(s')
  {
    var t := TimeUpdated(s, now);
    assert s'.peers.groups == t.peers.groups;
    assert forall p :: s'.peers.IsPriority(p) == t.peers.IsPriority(p);
    forall p ensures s'.peers.Reputation(p) == t.peers.Reputation(p) {
    }
  }

  /** The steps after which slots are allocated: a connection was lost, somebody new was found, a group was replaced, or
      reserved-only mode ended. */
  predicate Refills(s: State, l: Label) {
    match l.op
    case Dropped(_) => true
    case Discover(found) => exists p :: p in found && !s.peers.Known(p)
    case Act => s.rx != [] && !s.rx[0].RemoveReservedPeer? && !s.rx[0].ReportPeer? && s.rx[0] != SetReservedOnly(true)
    case _ => false
  }

  lemma RegroupIsOk(s: State, group: string, members: set<PeerId>)
    requires s.Ok()
    ensures s.(peers := s.peers.WithGroup(group, members)).Ok()
  {
    GroupKeepsConnections(s.peers, group, members);
  }

  lemma StepFills(s: State, l: Label, s': State)
    requires s.Ok() && Steps(s, l, s') && Refills(s, l)
    ensures Filled(s')
  {
    hide Filled, SlotsAllocated, DroppedFirst, Peers.WithGroup;
    match l.op
    case Dropped(p) =>
      DropIsOk(s, p, l.now);
      AllocationFills(DroppedFirst(s, p, l.now), l.now, l.ids, s');
    case Discover(found) =>
      DiscoveryOk(s, found);
      AllocationFills(s.(peers := DiscoveredAll(s.peers, found)), l.now, l.ids, s');
    case Act =>
      var t := s.(rx := s.rx[1..]);
      if s.rx[0] == SetReservedOnly(false) {
        AllocationFills(t.(reservedOnly := false, peers := t.peers.(priorityOnly := false)), l.now, l.ids, s');
      } else {
        var r := Regroups(s, l).value;
        RegroupIsOk(t, r.group, r.members);
        AllocationFills(t.(peers := t.peers.WithGroup(r.group, r.members)), l.now, l.ids, s');
      }
  }

  /** Whoever is found becomes known, and the known stay known. */
  lemma {:induction false} FoundAreKnown(peers: Peers, found: seq<PeerId>, p: PeerId)
    ensures DiscoveredAll(peers, found).Known(p) <==> peers.Known(p) || p in found
    ensures DiscoveredAll(peers, found).Reputation(p) == peers.Reputation(p)
    decreases |found|
  {
    if found != [] {
      FoundAreKnown(peers, found[..|found| - 1], p);
    }
  }

  /** The guards on single connections keep the limits and priority-only mode; and they let every priority peer through, and
      an ordinary one whenever that mode is off and a slot is free. */
  lemma GuardsKeepLimits(peers: Peers, p: PeerId)
    requires peers.Idle(p)
    ensures peers.MayDial(p) && peers.NumOut() <= peers.maxOut ==> peers.WithConnection(p, Out).NumOut() <= peers.maxOut
    ensures peers.MayAccept(p) && peers.NumIn() <= peers.maxIn ==> peers.WithConnection(p, In).NumIn() <= peers.maxIn
    ensures peers.priorityOnly && (peers.MayDial(p) || peers.MayAccept(p)) ==> peers.IsPriority(p)
    ensures peers.IsPriority(p) ==> peers.MayDial(p) && peers.MayAccept(p)
    ensures !peers.priorityOnly && peers.NumOut() < peers.maxOut ==> peers.MayDial(p)
    ensures !peers.priorityOnly && peers.NumIn() < peers.maxIn ==> peers.MayAccept(p)
  {
    SlotsAfterConnection(peers, p, Out);
    SlotsAfterConnection(peers, p, In);
  }
}
