/** Safety of the peer set manager over whole runs: how far slots can be overdrawn, and what reserved-only mode
    guarantees. */
module PeersetRuns {
  import opened Reputation
  import opened Basics
  import opened PeerTable
  import opened PeersetModel
  import opened PeersetMessages

  datatype Label = Label(op: Op, now: nat, ids: seq<PeerId>)

  ghost predicate Steps(s: State, l: Label, s': State) {
    s.created <= s.latest <= l.now && Next(s, l.op, l.now, l.ids, s')
  }

  ghost predicate IsRun(states: seq<State>, labels: seq<Label>) {
    && |states| == |labels| + 1
    && Started(states[0])
    && forall i :: 0 <= i < |labels| ==> Steps(states[i], labels[i], states[i + 1])
  }

  // ----- regrouping

  datatype Regrouping = Regrouping(group: string, members: set<PeerId>)

  /** The priority group the step replaces while it leaves the connected peers as they are. */
  function Regroups(s: State, l: Label): Option<Regrouping> {
    if !l.op.Act? || s.rx == [] then None
    else
      match s.rx[0]
      case AddReservedPeer(p) => Some(Regrouping(RESERVED_NODES, s.peers.Group(RESERVED_NODES) + {p}))
      case RemoveReservedPeer(p) =>
        if s.reservedOnly && s.peers.Connected(p) then None
        else Some(Regrouping(RESERVED_NODES, s.peers.Group(RESERVED_NODES) - {p}))
      case SetPriorityGroup(group, members) => Some(Regrouping(group, members))
      case AddToPriorityGroup(group, p) => Some(Regrouping(group, s.peers.Group(group) + {p}))
      case RemoveFromPriorityGroup(group, p) => Some(Regrouping(group, s.peers.Group(group) - {p}))
      case _ => None
  }

  lemma RemovalOnlyRegroups(s: State, p: PeerId)
    ensures !(s.reservedOnly && s.peers.Connected(p)) ==>
              ReservedRemoved(s, p) == s.(peers := s.peers.WithGroup(RESERVED_NODES, s.peers.Group(RESERVED_NODES) - {p}))
  {
  }

  // ----- overdrawn slots

  /** Connected peers of kind `c` that lose their last priority group between two tables. */
  function Demoted(before: Peers, after: Peers, c: Connection): set<PeerId> {
    set p | p in before.nodes && before.nodes[p].connection == c && before.IsPriority(p) && !after.IsPriority(p)
  }

  /** Whoever occupies a slot after the change occupied one before or was demoted; or the kind is within its limit. */
  ghost predicate Bounded(before: Peers, after: Peers, c: Connection, max: nat) {
    || |after.Occupants(c)| <= max
    || after.Occupants(c) <= before.Occupants(c) + Demoted(before, after, c)
  }

  ghost predicate BothBounded(before: Peers, after: Peers) {
    && after.maxIn == before.maxIn && after.maxOut == before.maxOut
    && Bounded(before, after, In, after.maxIn) && Bounded(before, after, Out, after.maxOut)
  }

  lemma GroupBounded(peers: Peers, group: string, members: set<PeerId>)
    ensures BothBounded(peers, peers.WithGroup(group, members))
    ensures peers.WithGroup(group, members).Occupants(In) <= peers.Occupants(In) + Demoted(peers, peers.WithGroup(group, members), In)
    ensures peers.WithGroup(group, members).Occupants(Out) <= peers.Occupants(Out) + Demoted(peers, peers.WithGroup(group, members), Out)
  {
  }

  /** Slot allocation takes slots up to the limit, or none. */
  lemma AllocationOccupants(s: State, now: nat, ids: seq<PeerId>, s': State)
    requires s.Ok() && s.latest <= now && SlotsAllocated(s, now, ids, s')
    ensures s'.peers.groups == s.peers.groups && s'.peers.maxIn == s.peers.maxIn && s'.peers.maxOut == s.peers.maxOut
    ensures s'.peers.Occupants(In) == s.peers.Occupants(In)
    ensures s.peers.Occupants(Out) <= s'.peers.Occupants(Out)
    ensures s'.peers.Occupants(Out) == s.peers.Occupants(Out) || s'.peers.NumOut() <= s'.peers.maxOut
  {
    var t := TimeUpdated(s, now);
    DecayKeepsConnections(s.peers, SecondsSince(s, now));
    assert forall p :: s'.peers.IsPriority(p) == t.peers.IsPriority(p);
    assert s'.peers.Occupants(In) == t.peers.Occupants(In);
    if forall i :: 0 <= i < |ids| ==> t.peers.IsPriority(ids[i]) {
      assert s'.peers.Occupants(Out) == t.peers.Occupants(Out);
    }
  }

  /** Slot allocation after any change that only regroups peers or frees slots. */
  lemma AllocationBounded(before: Peers, s: State, now: nat, ids: seq<PeerId>, s': State)
    requires s.Ok() && s.latest <= now && SlotsAllocated(s, now, ids, s')
    requires s.peers.maxIn == before.maxIn && s.peers.maxOut == before.maxOut
    requires s.peers.Occupants(In) <= before.Occupants(In) + Demoted(before, s.peers, In)
    requires s.peers.Occupants(Out) <= before.Occupants(Out) + Demoted(before, s.peers, Out)
    ensures BothBounded(before, s'.peers)
  {
    hide SlotsAllocated, Peers.Occupants;
    AllocationOccupants(s, now, ids, s');
    SameDemoted(before, s.peers, s'.peers);
  }

  lemma SameDemoted(before: Peers, after: Peers, later: Peers)
    requires later.groups == after.groups
    ensures forall c :: Demoted(before, later, c) == Demoted(before, after, c)
  {
    assert forall p :: later.IsPriority(p) == after.IsPriority(p);
  }

  /** Slots are only freed, and groups are the same. */
  lemma ShrunkBounded(before: Peers, after: Peers)
    requires after.groups == before.groups && after.maxIn == before.maxIn && after.maxOut == before.maxOut
    requires forall p :: p in after.nodes && after.nodes[p].connection != NotConnected ==>
               p in before.nodes && before.nodes[p].connection == after.nodes[p].connection
    ensures BothBounded(before, after)
    ensures after.Occupants(In) <= before.Occupants(In) + Demoted(before, after, In)
    ensures after.Occupants(Out) <= before.Occupants(Out) + Demoted(before, after, Out)
  {
    assert forall p :: after.IsPriority(p) == before.IsPriority(p);
  }

  lemma IncomingBounded(s: State, p: PeerId, index: nat, now: nat)
    requires s.Ok() && s.latest <= now
    ensures BothBounded(s.peers, IncomingResult(s, p, index, now).peers)
  {
    var t := TimeUpdated(s, now);
    var known := t.peers.Discovered(p);
    var after := IncomingResult(s, p, index, now).peers;
    DecayKeepsConnections(s.peers, SecondsSince(s, now));
    OccupantsAfterReputation(t.peers, p, 0, In);
    OccupantsAfterReputation(t.peers, p, 0, Out);
    if after != t.peers && after != known {
      OccupantsAfterConnection(known, p, In, In);
      OccupantsAfterConnection(known, p, In, Out);
    }
  }

  lemma {:induction false} DiscoveryShrinks(peers: Peers, found: seq<PeerId>)
    ensures var after := DiscoveredAll(peers, found);
            && after.groups == peers.groups && after.maxIn == peers.maxIn && after.maxOut == peers.maxOut
            && after.priorityOnly == peers.priorityOnly
            && (forall p :: p in peers.nodes ==> p in after.nodes)
            && forall p :: p in after.nodes && after.nodes[p].connection != NotConnected ==>
                 p in peers.nodes && peers.nodes[p].connection == after.nodes[p].connection
    decreases |found|
  {
    if found != [] {
      DiscoveryShrinks(peers, found[..|found| - 1]);
    }
  }

  lemma ReservedRemovalBounded(s: State, p: PeerId)
    requires s.Ok()
    ensures BothBounded(s.peers, ReservedRemoved(s, p).peers)
  {
    var members := s.peers.Group(RESERVED_NODES) - {p};
    var peers := s.peers.WithGroup(RESERVED_NODES, members);
    GroupBounded(s.peers, RESERVED_NODES, members);
    if p in peers.nodes {
      OccupantsAfterConnection(peers, p, NotConnected, In);
      OccupantsAfterConnection(peers, p, NotConnected, Out);
      assert forall q :: peers.WithConnection(p, NotConnected).IsPriority(q) == peers.IsPriority(q);
    }
  }

  lemma ReportBounded(s: State, p: PeerId, change: i32, now: nat)
    requires s.Ok() && s.latest <= now
    ensures BothBounded(s.peers, Reported(s, p, change, now).peers)
  {
    ShrunkBounded(s.peers, Reported(s, p, change, now).peers);
  }

  lemma ModeChangeBounded(s: State, only: bool, now: nat, ids: seq<PeerId>, s': State)
    requires s.Ok() && s.latest <= now && Acted(s, SetReservedOnly(only), now, ids, s')
    ensures BothBounded(s.peers, s'.peers)
  {
    hide Allocated;
    var t := s.(reservedOnly := only, peers := s.peers.(priorityOnly := only));
    ShrunkBounded(s.peers, t.peers);
    if only {
      ShrunkBounded(s.peers, s'.peers);
    } else {
      AllocationBounded(s.peers, t, now, ids, s');
    }
  }

  lemma {:induction false} ActBounded(s: State, l: Label, s': State)
    requires s.Ok() && Steps(s, l, s') && l.op.Act?
    ensures BothBounded(s.peers, s'.peers)
  {
    hide BothBounded, SlotsAllocated, ReservedRemoved, Reported, Peers.WithGroup, Expelled, Disconnected;
    var t := s.(rx := s.rx[1..]);
    match s.rx[0]
    case AddReservedPeer(p) => RegroupBounded(t, RESERVED_NODES, t.peers.Group(RESERVED_NODES) + {p}, l.now, l.ids, s');
    case SetPriorityGroup(group, members) => RegroupBounded(t, group, members, l.now, l.ids, s');
    case AddToPriorityGroup(group, p) => RegroupBounded(t, group, t.peers.Group(group) + {p}, l.now, l.ids, s');
    case RemoveFromPriorityGroup(group, p) => RegroupBounded(t, group, t.peers.Group(group) - {p}, l.now, l.ids, s');
    case RemoveReservedPeer(p) => ReservedRemovalBounded(t, p);
    case ReportPeer(p, change) => ReportBounded(t, p, change, l.now);
    case SetReservedOnly(only) => ModeChangeBounded(t, only, l.now, l.ids, s');
  }

  lemma RegroupBounded(s: State, group: string, members: set<PeerId>, now: nat, ids: seq<PeerId>, s': State)
    requires s.Ok() && s.latest <= now && SlotsAllocated(s.(peers := s.peers.WithGroup(group, members)), now, ids, s')
    ensures BothBounded(s.peers, s'.peers)
  {
    GroupBounded(s.peers, group, members);
    AllocationBounded(s.peers, s.(peers := s.peers.WithGroup(group, members)), now, ids, s');
  }

  lemma AllocationOk(s: State, now: nat, ids: seq<PeerId>, s': State)
    requires s.Ok() && s.latest <= now && SlotsAllocated(s, now, ids, s')
    ensures s'.Ok()
  {
    hide Peers.Occupants, Peers.IsPriority;
  }

  lemma DropBounded(s: State, p: PeerId, now: nat, ids: seq<PeerId>, s': State)
    requires s.Ok() && s.latest <= now && SlotsAllocated(DroppedFirst(s, p, now), now, ids, s')
    ensures s'.Ok() && BothBounded(s.peers, s'.peers)
  {
    hide Allocated, BothBounded;
    var t := DroppedFirst(s, p, now);
    ShrunkBounded(s.peers, t.peers);
    AllocationBounded(s.peers, t, now, ids, s');
    AllocationOk(t, now, ids, s');
  }

  lemma DiscoveryBounded(s: State, found: seq<PeerId>, now: nat, ids: seq<PeerId>, s': State)
    requires s.Ok() && s.latest <= now && SlotsAllocated(s.(peers := DiscoveredAll(s.peers, found)), now, ids, s')
    ensures s'.Ok() && BothBounded(s.peers, s'.peers)
  {
    hide Allocated, BothBounded;
    var t := s.(peers := DiscoveredAll(s.peers, found));
    DiscoveryShrinks(s.peers, found);
    ShrunkBounded(s.peers, t.peers);
    AllocationBounded(s.peers, t, now, ids, s');
    AllocationOk(t, now, ids, s');
  }

  lemma StepBounded(s: State, l: Label, s': State)
    requires s.Ok() && Steps(s, l, s')
    ensures s'.Ok() && BothBounded(s.peers, s'.peers)
  {
    hide SlotsAllocated, Acted, DroppedFirst, DiscoveredAll, BothBounded;
    match l.op
    case Incoming(p, index) => IncomingBounded(s, p, index, l.now);
    case Dropped(p) => DropBounded(s, p, l.now, l.ids, s');
    case Discover(found) =>
      SameBounded(s.peers);
      if s' != s {
        DiscoveryBounded(s, found, l.now, l.ids, s');
      }
    case Send(_) => SameBounded(s.peers);
    case Take => SameBounded(s.peers);
    case Act =>
      ActBounded(s, l, s');
      ActionExplained(s, l.now, l.ids, s');
  }

  lemma SameBounded(peers: Peers)
    ensures BothBounded(peers, peers)
  {
  }

  /** The number of demotions of connected peers of kind `c` in the first `k` steps. */
  ghost function Demotions(states: seq<State>, k: nat, c: Connection): nat
    requires k < |states|
    decreases k
  {
    if k == 0 then 0 else Demotions(states, k - 1, c) + |Demoted(states[k - 1].peers, states[k].peers, c)|
  }

  lemma StartBounded(s: State)
    requires Started(s)
    ensures s.Ok() && s.peers.NumIn() <= s.peers.maxIn && s.peers.NumOut() <= s.peers.maxOut
  {
    var s0, now, ids :| Configured(s0, now) && SlotsAllocated(s0, now, ids, s);
    AllocationBounded(s0.peers, s0, now, ids, s);
    AllocationOk(s0, now, ids, s);
    NobodyToCount(s0.peers, s.peers);
  }

  lemma NobodyToCount(before: Peers, after: Peers)
    requires before.ConnectedPeers() == {} && BothBounded(before, after)
    ensures after.NumIn() <= after.maxIn && after.NumOut() <= after.maxOut
  {
    assert forall p :: before.Connected(p) ==> p in before.ConnectedPeers();
    assert before.Occupants(In) == {} && before.Occupants(Out) == {};
    assert Demoted(before, after, In) == {} && Demoted(before, after, Out) == {};
  }

  /** Over any run a slot counter exceeds its limit by at most the number of connected priority peers demoted so far. */
  lemma {:induction false} OverdraftOnlyByDemotion(states: seq<State>, labels: seq<Label>, k: nat)
    requires IsRun(states, labels) && k <= |labels|
    ensures states[k].Ok()
    ensures states[k].peers.maxIn == states[0].peers.maxIn && states[k].peers.maxOut == states[0].peers.maxOut
    ensures states[k].peers.NumIn() <= states[0].peers.maxIn + Demotions(states, k, In)
    ensures states[k].peers.NumOut() <= states[0].peers.maxOut + Demotions(states, k, Out)
    decreases k
  {
    var peers := states[k].peers;
    if k == 0 {
      StartBounded(states[0]);
    } else {
      OverdraftOnlyByDemotion(states, labels, k - 1);
      StepBounded(states[k - 1], labels[k - 1], states[k]);
      CountBound(states[k - 1].peers, peers, In, peers.maxIn);
      CountBound(states[k - 1].peers, peers, Out, peers.maxOut);
    }
  }

  lemma CountBound(before: Peers, after: Peers, c: Connection, max: nat)
    requires Bounded(before, after, c, max)
    ensures |after.Occupants(c)| <= max || |after.Occupants(c)| <= |before.Occupants(c)| + |Demoted(before, after, c)|
  {
    if |after.Occupants(c)| > max {
      SubsetSize(after.Occupants(c), before.Occupants(c) + Demoted(before, after, c));
    }
  }

  // ----- reserved-only mode

  /** While reserved-only mode is on, every connected peer is in a priority group. */
  ghost predicate ReservedSafe(s: State) { s.reservedOnly ==> ConnectedArePriority(s.peers) }

  ghost predicate ConnectedArePriority(peers: Peers) { forall p :: peers.Connected(p) ==> peers.IsPriority(p) }

  /** Messages are taken from the front or put at the back, and in reserved-only mode every Connect put there is for a
      reserved peer. */
  ghost predicate ConnectsReserved(s: State, s': State) {
    || (s.queue != [] && s'.queue == s.queue[1..])
    || (&& s.queue <= s'.queue
        && (s'.reservedOnly ==>
              forall i :: |s.queue| <= i < |s'.queue| && s'.queue[i].Connect? ==> s'.queue[i].peer in s'.peers.Group(RESERVED_NODES)))
  }

  /** Replacing `group` by `members` takes a connected peer out of its last group. */
  predicate Strands(peers: Peers, group: string, members: set<PeerId>) {
    exists p :: p in peers.Group(group) && peers.Connected(p) && p !in members && !peers.PriorityElsewhere(p, group)
  }

  /** In reserved-only mode the step takes a connected peer out of its last group. */
  predicate IsStranding(s: State, l: Label) {
    var r := Regroups(s, l);
    s.reservedOnly && r.Some? && Strands(s.peers, r.value.group, r.value.members)
  }

  lemma AllocationReserved(s: State, now: nat, ids: seq<PeerId>, s': State)
    requires s.Ok() && s.latest <= now && SlotsAllocated(s, now, ids, s')
    ensures ReservedSafe(s') <==> ReservedSafe(s)
    ensures ConnectsReserved(s, s')
  {
    var t := TimeUpdated(s, now);
    DecayKeepsConnections(s.peers, SecondsSince(s, now));
    assert s'.peers.groups == t.peers.groups == s.peers.groups;
    assert forall p :: s'.peers.IsPriority(p) == s.peers.IsPriority(p);
    if s.reservedOnly {
      forall p
        ensures s'.peers.Connected(p) && !s'.peers.IsPriority(p) <==> s.peers.Connected(p) && !s.peers.IsPriority(p)
      {
        assert s.peers.Connected(p) <==> p in s.peers.ConnectedPeers();
        assert t.peers.Connected(p) <==> p in t.peers.ConnectedPeers();
        if p in ids {
          assert Eligible(t.peers, true, p);
          assert RESERVED_NODES in s'.peers.groups && p in s'.peers.groups[RESERVED_NODES];
        }
      }
    }
  }

  lemma PriorityKept(before: Peers, after: Peers)
    requires ConnectedArePriority(before)
    requires forall g :: g in before.groups ==> g in after.groups && before.groups[g] <= after.groups[g]
    requires forall p :: after.Connected(p) ==> before.Connected(p)
    ensures ConnectedArePriority(after)
  {
    forall p | after.Connected(p)
      ensures after.IsPriority(p)
    {
      var g :| g in before.groups && p in before.groups[g];
      assert g in after.groups && p in after.groups[g];
    }
  }

  lemma IncomingReserved(s: State, p: PeerId, index: nat, now: nat)
    requires s.Ok() && s.latest <= now
    ensures var s' := IncomingResult(s, p, index, now); ConnectsReserved(s, s') && (ReservedSafe(s) ==> ReservedSafe(s'))
  {
    var t := TimeUpdated(s, now);
    var known := t.peers.Discovered(p);
    if ReservedSafe(s) && s.reservedOnly {
      PriorityKept(s.peers, t.peers);
      PriorityKept(s.peers, known);
      if known.MayAccept(p) {
        AcceptedReserved(known, p);
      }
    }
  }

  lemma AcceptedReserved(peers: Peers, p: PeerId)
    requires ConnectedArePriority(peers) && peers.IsPriority(p) && p in peers.nodes
    ensures ConnectedArePriority(peers.WithConnection(p, In))
  {
    var after := peers.WithConnection(p, In);
    forall q | after.Connected(q)
      ensures after.IsPriority(q)
    {
      assert q != p ==> peers.Connected(q);
      var g :| g in peers.groups && q in peers.groups[g];
      assert g in after.groups && q in after.groups[g];
    }
  }

  /** A reserved peer that is removed while connected in reserved-only mode is dropped as well. */
  lemma RemovalReserved(s: State, p: PeerId)
    requires s.Ok() && s.reservedOnly && s.peers.Connected(p)
    ensures var s' := ReservedRemoved(s, p); ConnectsReserved(s, s') && (ReservedSafe(s) ==> ReservedSafe(s'))
  {
    var s' := ReservedRemoved(s, p);
    var members := s.peers.Group(RESERVED_NODES) - {p};
    if ReservedSafe(s) {
      forall q | s'.peers.Connected(q)
        ensures s'.peers.IsPriority(q)
      {
        assert s.peers.Connected(q) && q != p;
        PriorityAfterGroup(s.peers, RESERVED_NODES, members, q);
        var g :| g in s.peers.WithGroup(RESERVED_NODES, members).groups && q in s.peers.WithGroup(RESERVED_NODES, members).groups[g];
        assert g in s'.peers.groups;
      }
    }
  }

  lemma ModeChangeReserved(s: State, only: bool, now: nat, ids: seq<PeerId>, s': State)
    requires s.Ok() && s.latest <= now && s.queue == [] && Acted(s, SetReservedOnly(only), now, ids, s')
    ensures ReservedSafe(s') && ConnectsReserved(s, s')
  {
    var t := s.(reservedOnly := only, peers := s.peers.(priorityOnly := only));
    if only {
      forall p | s'.peers.Connected(p)
        ensures s'.peers.IsPriority(p)
      {
        assert t.peers.Connected(p) && p !in ids;
        assert RESERVED_NODES in s'.peers.groups && p in s'.peers.groups[RESERVED_NODES];
      }
    } else {
      AllocationReserved(t, now, ids, s');
    }
  }

  /** A regrouping from a safe state is safe if and only if it strands nobody. */
  lemma RegroupSafe(s: State, group: string, members: set<PeerId>)
    requires ReservedSafe(s)
    ensures ReservedSafe(s.(peers := s.peers.WithGroup(group, members))) <==>
            !(s.reservedOnly && Strands(s.peers, group, members))
  {
    var after := s.peers.WithGroup(group, members);
    if s.reservedOnly {
      forall p
        ensures after.Connected(p) && !after.IsPriority(p) <==>
                p in s.peers.Group(group) && s.peers.Connected(p) && p !in members && !s.peers.PriorityElsewhere(p, group)
      {
        PriorityAfterGroup(s.peers, group, members, p);
        assert after.Connected(p) <==> s.peers.Connected(p);
      }
    }
  }

  lemma RegroupReserved(s: State, group: string, members: set<PeerId>, now: nat, ids: seq<PeerId>, s': State)
    requires s.Ok() && s.latest <= now
    requires SlotsAllocated(s.(peers := s.peers.WithGroup(group, members)), now, ids, s')
    ensures ConnectsReserved(s, s')
    ensures ReservedSafe(s) ==> (ReservedSafe(s') <==> !(s.reservedOnly && Strands(s.peers, group, members)))
  {
    hide SlotsAllocated, ReservedSafe, Strands;
    var t := s.(peers := s.peers.WithGroup(group, members));
    AllocationReserved(t, now, ids, s');
    if ReservedSafe(s) {
      RegroupSafe(s, group, members);
    }
  }

  /** Whom a step dials, and exactly when it keeps reserved-only safety. */
  lemma {:induction false} ReservedStep(s: State, l: Label, s': State)
    requires s.Ok() && Steps(s, l, s')
    ensures ConnectsReserved(s, s')
    ensures ReservedSafe(s) ==> (ReservedSafe(s') <==> !IsStranding(s, l))
  {
    hide SlotsAllocated, DroppedFirst, DiscoveredAll, IncomingResult, Acted, ReservedSafe, ConnectsReserved;
    match l.op
    case Incoming(p, index) => IncomingReserved(s, p, index, l.now);
    case Dropped(p) => DropReserved(s, p, l.now, l.ids, s');
    case Discover(found) =>
      QueueReserved(s, s);
      if s' != s {
        DiscoveryReserved(s, found, l.now, l.ids, s');
      }
    case Send(_) => QueueReserved(s, s');
    case Take => QueueReserved(s, s');
    case Act => ActReserved(s, l, s');
  }

  /** The table stays as it is. */
  lemma QueueReserved(s: State, s': State)
    requires s'.peers == s.peers && s'.reservedOnly == s.reservedOnly
    requires s'.queue == s.queue || (s.queue != [] && s'.queue == s.queue[1..])
    ensures ConnectsReserved(s, s') && (ReservedSafe(s) ==> ReservedSafe(s'))
  {
  }

  lemma DropReserved(s: State, p: PeerId, now: nat, ids: seq<PeerId>, s': State)
    requires s.Ok() && s.latest <= now && SlotsAllocated(DroppedFirst(s, p, now), now, ids, s')
    ensures ConnectsReserved(s, s') && (ReservedSafe(s) ==> ReservedSafe(s'))
  {
    hide SlotsAllocated;
    var t := DroppedFirst(s, p, now);
    if ReservedSafe(s) && s.reservedOnly {
      PriorityKept(s.peers, t.peers);
    }
    AllocationReserved(t, now, ids, s');
  }

  lemma DiscoveryReserved(s: State, found: seq<PeerId>, now: nat, ids: seq<PeerId>, s': State)
    requires s.Ok() && s.latest <= now && SlotsAllocated(s.(peers := DiscoveredAll(s.peers, found)), now, ids, s')
    ensures ConnectsReserved(s, s') && (ReservedSafe(s) ==> ReservedSafe(s'))
  {
    hide SlotsAllocated;
    var t := s.(peers := DiscoveredAll(s.peers, found));
    DiscoveryShrinks(s.peers, found);
    if ReservedSafe(s) && s.reservedOnly {
      PriorityKept(s.peers, t.peers);
    }
    AllocationReserved(t, now, ids, s');
  }

  lemma ReportReserved(s: State, p: PeerId, change: i32, now: nat)
    requires s.Ok() && s.latest <= now
    ensures var s' := Reported(s, p, change, now); ConnectsReserved(s, s') && (ReservedSafe(s) ==> ReservedSafe(s'))
  {
    if ReservedSafe(s) && s.reservedOnly {
      PriorityKept(s.peers, Reported(s, p, change, now).peers);
    }
  }

  lemma ActReserved(s: State, l: Label, s': State)
    requires s.Ok() && Steps(s, l, s') && l.op.Act?
    ensures ConnectsReserved(s, s')
    ensures ReservedSafe(s) ==> (ReservedSafe(s') <==> !IsStranding(s, l))
  {
    hide SlotsAllocated, Reported, ReservedRemoved, Peers.WithGroup, Strands, ConnectedArePriority;
    var t := s.(rx := s.rx[1..]);
    match s.rx[0]
    case AddReservedPeer(p) => RegroupReserved(t, RESERVED_NODES, t.peers.Group(RESERVED_NODES) + {p}, l.now, l.ids, s');
    case AddToPriorityGroup(group, p) => RegroupReserved(t, group, t.peers.Group(group) + {p}, l.now, l.ids, s');
    case SetPriorityGroup(group, members) => RegroupReserved(t, group, members, l.now, l.ids, s');
    case RemoveFromPriorityGroup(group, p) => RegroupReserved(t, group, t.peers.Group(group) - {p}, l.now, l.ids, s');
    case RemoveReservedPeer(p) =>
      RemovalOnlyRegroups(t, p);
      if s.reservedOnly && s.peers.Connected(p) {
        RemovalReserved(t, p);
      } else if ReservedSafe(s) {
        RegroupSafe(t, RESERVED_NODES, t.peers.Group(RESERVED_NODES) - {p});
      }
    case ReportPeer(p, change) => ReportReserved(t, p, change, l.now);
    case SetReservedOnly(only) => ModeChangeReserved(t, only, l.now, l.ids, s');
  }

  /** Over any run: in reserved-only mode only reserved peers are newly dialled; and every connected peer is in a priority
      group, at every point of the run, if and only if no step of the run strands one. */
  lemma {:induction false} ReservedOnlySafety(states: seq<State>, labels: seq<Label>, k: nat)
    requires IsRun(states, labels) && k <= |labels|
    ensures states[k].peers.priorityOnly == states[k].reservedOnly
    ensures k > 0 ==> ConnectsReserved(states[k - 1], states[k])
    ensures states[k].reservedOnly ==> (ReservedSafe(states[k]) <==> states[k].peers.NumIn() == 0 && states[k].peers.NumOut() == 0)
    ensures (forall i :: 0 <= i <= k ==> ReservedSafe(states[i])) <==> (forall i :: 0 <= i < k ==> !IsStranding(states[i], labels[i]))
    decreases k
  {
    hide ReservedSafe, ConnectsReserved, IsStranding, Started, Next;
    OverdraftOnlyByDemotion(states, labels, k);
    if states[k].reservedOnly {
      SafeWithoutSlots(states[k]);
    }
    if k == 0 {
      StartReserved(states[0]);
    } else {
      ReservedOnlySafety(states, labels, k - 1);
      OverdraftOnlyByDemotion(states, labels, k - 1);
      assert Steps(states[k - 1], labels[k - 1], states[k - 1 + 1]);
      ReservedStep(states[k - 1], labels[k - 1], states[k]);
    }
  }

  lemma StartReserved(s: State)
    requires Started(s)
    ensures ReservedSafe(s)
  {
    var s0, now, ids :| Configured(s0, now) && SlotsAllocated(s0, now, ids, s);
    assert forall p :: s0.peers.Connected(p) ==> p in s0.peers.ConnectedPeers();
    AllocationReserved(s0, now, ids, s);
  }

  /** In reserved-only mode, safe means that no slot is in use. */
  lemma SafeWithoutSlots(s: State)
    requires s.reservedOnly
    ensures ReservedSafe(s) <==> s.peers.NumIn() == 0 && s.peers.NumOut() == 0
  {
    var peers := s.peers;
    if peers.NumIn() == 0 && peers.NumOut() == 0 {
      assert peers.Occupants(In) == {} && peers.Occupants(Out) == {};
      forall p | peers.Connected(p)
        ensures peers.IsPriority(p)
      {
        assert p !in peers.Occupants(In) && p !in peers.Occupants(Out);
      }
    }
    if ReservedSafe(s) {
      assert forall p :: p in peers.Occupants(In) || p in peers.Occupants(Out) ==> peers.Connected(p);
      assert peers.Occupants(In) == {} && peers.Occupants(Out) == {};
    }
  }
}
