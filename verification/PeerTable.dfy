/** The peer table behind the peer set manager.

    `Peers` is the plain table: who is known, how we are connected, who is in which priority group.  The
    slot usage of a table is *counted*.  The class `PeersState` keeps the same table together with two
    counters that are adjusted step by step; `Valid` says they always equal the count. */
module PeerTable {
  import opened Basics
  import opened Reputation

  type PeerId = nat

  datatype Connection = In | Out | NotConnected

  datatype Node = Node(connection: Connection, reputation: i32)

  const DEFAULT_NODE := Node(NotConnected, 0)

  datatype Peers = Peers(
    nodes: map<PeerId, Node>,
    groups: map<string, set<PeerId>>,
    maxIn: nat,
    maxOut: nat,
    priorityOnly: bool)
  {
    predicate Known(p: PeerId) { p in nodes }

    predicate Connected(p: PeerId) { p in nodes && nodes[p].connection != NotConnected }

    predicate Idle(p: PeerId) { p in nodes && nodes[p].connection == NotConnected }

    /** In at least one priority group. */
    predicate IsPriority(p: PeerId) { exists g :: g in groups && p in groups[g] }

    /** In a priority group other than `group`. */
    predicate PriorityElsewhere(p: PeerId, group: string) {
      exists g :: g in groups && g != group && p in groups[g]
    }

    function Reputation(p: PeerId): i32 { if p in nodes then nodes[p].reputation else 0 }

    function Group(group: string): set<PeerId> { if group in groups then groups[group] else {} }

    /** The peers that occupy a slot of kind `c`: connected that way and in no priority group. */
    function Occupants(c: Connection): set<PeerId> {
      set p | p in nodes && nodes[p].connection == c && !IsPriority(p)
    }

    /** Would occupy a slot of kind `c` if `group` did not exist. */
    predicate TakesSlotWithout(p: PeerId, group: string, c: Connection) {
      p in nodes && nodes[p].connection == c && !PriorityElsewhere(p, group)
    }

    function NumIn(): nat { |Occupants(In)| }

    function NumOut(): nat { |Occupants(Out)| }

    /** Priority-group members are always known nodes. */
    predicate GroupsKnown() { forall g, p :: g in groups && p in groups[g] ==> p in nodes }

    function ConnectedPeers(): set<PeerId> { set p | p in nodes && nodes[p].connection != NotConnected }

    function IdlePeers(): set<PeerId> { set p | p in nodes && nodes[p].connection == NotConnected }

    // ----- operations on the plain table

    function WithConnection(p: PeerId, c: Connection): Peers {
      if p in nodes then this.(nodes := nodes[p := nodes[p].(connection := c)]) else this
    }

    function WithReputation(p: PeerId, value: i32): Peers {
      this.(nodes := nodes[p := NodeOrDefault(p).(reputation := value)])
    }

    function NodeOrDefault(p: PeerId): Node { if p in nodes then nodes[p] else DEFAULT_NODE }

    function WithGroup(group: string, members: set<PeerId>): Peers {
      this.(nodes := map p | p in nodes.Keys + members :: NodeOrDefault(p),
            groups := groups[group := members])
    }

    function Discovered(p: PeerId): Peers {
      if p in nodes then this else this.(nodes := nodes[p := DEFAULT_NODE])
    }

    /** Whether a new outgoing (incoming) connection to `p` may take place. */
    predicate MayDial(p: PeerId) {
      p in nodes && (IsPriority(p) || (!priorityOnly && NumOut() < maxOut))
    }

    predicate MayAccept(p: PeerId) {
      p in nodes && (IsPriority(p) || (!priorityOnly && NumIn() < maxIn))
    }
  }

  function EmptyPeers(maxIn: nat, maxOut: nat, priorityOnly: bool): Peers {
    Peers(map[], map[], maxIn, maxOut, priorityOnly)
  }

  /** What one connection change does to the occupants of a slot kind. */
  lemma OccupantsAfterConnection(s: Peers, p: PeerId, to: Connection, c: Connection)
    requires p in s.nodes
    ensures s.WithConnection(p, to).Occupants(c) ==
            if to == c && !s.IsPriority(p) then s.Occupants(c) + {p} else s.Occupants(c) - {p}
  {
    var t := s.WithConnection(p, to);
    assert forall q :: t.IsPriority(q) == s.IsPriority(q);
  }

  /** Connecting an idle peer takes one slot of that kind, unless the peer has priority. */
  lemma SlotsAfterConnection(s: Peers, p: PeerId, to: Connection)
    requires p in s.nodes && !s.Connected(p) && to != NotConnected
    ensures s.WithConnection(p, to).NumIn() == s.NumIn() + if to == In && !s.IsPriority(p) then 1 else 0
    ensures s.WithConnection(p, to).NumOut() == s.NumOut() + if to == Out && !s.IsPriority(p) then 1 else 0
  {
    OccupantsAfterConnection(s, p, to, In);
    OccupantsAfterConnection(s, p, to, Out);
    assert p !in s.Occupants(In) && p !in s.Occupants(Out);
  }

  /** Disconnecting a peer gives back the slot it had, if any. */
  lemma SlotsAfterDisconnect(s: Peers, p: PeerId)
    requires p in s.nodes
    ensures var had := (c: Connection) => s.nodes[p].connection == c && !s.IsPriority(p);
            && s.WithConnection(p, NotConnected).NumIn() + (if had(In) then 1 else 0) == s.NumIn()
            && s.WithConnection(p, NotConnected).NumOut() + (if had(Out) then 1 else 0) == s.NumOut()
  {
    OccupantsAfterConnection(s, p, NotConnected, In);
    OccupantsAfterConnection(s, p, NotConnected, Out);
    assert p in s.Occupants(In) <==> s.nodes[p].connection == In && !s.IsPriority(p);
    assert p in s.Occupants(Out) <==> s.nodes[p].connection == Out && !s.IsPriority(p);
  }

  /** Giving or discovering a reputation does not touch the slots. */
  lemma OccupantsAfterReputation(s: Peers, p: PeerId, value: i32, c: Connection)
    requires c != NotConnected
    ensures s.WithReputation(p, value).Occupants(c) == s.Occupants(c)
    ensures s.Discovered(p).Occupants(c) == s.Occupants(c)
  {
    var t := s.WithReputation(p, value);
    var u := s.Discovered(p);
    assert forall q :: t.IsPriority(q) == s.IsPriority(q);
    assert forall q :: u.IsPriority(q) == s.IsPriority(q);
  }

  lemma PriorityAfterGroup(s: Peers, group: string, members: set<PeerId>, p: PeerId)
    ensures s.WithGroup(group, members).IsPriority(p) <==> p in members || s.PriorityElsewhere(p, group)
    ensures s.IsPriority(p) <==> p in s.Group(group) || s.PriorityElsewhere(p, group)
  {
    var t := s.WithGroup(group, members);
    if p in members {
      assert group in t.groups && p in t.groups[group];
    }
    if s.PriorityElsewhere(p, group) {
      var g :| g in s.groups && g != group && p in s.groups[g];
      assert g in t.groups && p in t.groups[g];
    }
    if p in s.Group(group) {
      assert group in s.groups;
    }
    if t.IsPriority(p) && p !in members {
      var g :| g in t.groups && p in t.groups[g];
      assert g in s.groups && g != group && p in s.groups[g];
    }
  }

  /** The slot bookkeeping of `PeersState`: a mutable peer table with incremental counters. */
  class PeersState {
    var nodes: map<PeerId, Node>
    var numIn: nat
    var numOut: nat
    const maxIn: nat
    const maxOut: nat
    var priorityNodes: map<string, set<PeerId>>
    var priorityOnly: bool

    /** The plain table this object stands for. */
    function View(): Peers
      reads this
    {
      Peers(nodes, priorityNodes, maxIn, maxOut, priorityOnly)
    }

    /** The counters equal the count, and every group member is a known node. */
    ghost predicate Valid()
      reads this
    {
      numIn == View().NumIn() && numOut == View().NumOut() && View().GroupsKnown()
    }

    constructor (inPeers: nat, outPeers: nat, priorityOnly: bool)
      ensures Valid() && View() == EmptyPeers(inPeers, outPeers, priorityOnly)
    {
      nodes, numIn, numOut := map[], 0, 0;
      maxIn, maxOut := inPeers, outPeers;
      priorityNodes := map[];
      this.priorityOnly := priorityOnly;
      new;
      assert View().Occupants(In) == {} && View().Occupants(Out) == {};
    }

    /** Makes a peer idle and gives back its slot. */
    method Disconnect(p: PeerId)
      requires Valid()
      requires View().Idle(p) ==> View().IsPriority(p)
      modifies this
      ensures Valid() && View() == old(View()).WithConnection(p, NotConnected)
    {
      hide Peers.NumIn, Peers.NumOut;
      if p in nodes {
        SlotsAfterDisconnect(View(), p);
        if !View().IsPriority(p) {
          match nodes[p].connection
          case In => numIn := numIn - 1;
          case Out => numOut := numOut - 1;
        }
        nodes := nodes[p := nodes[p].(connection := NotConnected)];
      }
    }

    /** Marks an idle peer as dialled, if it may be. */
    method TryOutgoing(p: PeerId) returns (ok: bool)
      requires Valid() && !View().Connected(p)
      modifies this
      ensures Valid()
      ensures ok == old(View()).MayDial(p)
      ensures View() == if ok then old(View()).WithConnection(p, Out) else old(View())
    {
      hide Peers.NumIn, Peers.NumOut;
      var isPriority := View().IsPriority(p);
      if !isPriority && priorityOnly {
        return false;
      }
      if numOut >= maxOut && !isPriority {
        return false;
      }
      if p in nodes {
        ghost var before := View();
        SlotsAfterConnection(before, p, Out);
        nodes := nodes[p := nodes[p].(connection := Out)];
        if !isPriority {
          numOut := numOut + 1;
        }
        return true;
      }
      return false;
    }

    /** Marks an idle peer as accepted, if it may be. */
    method TryAcceptIncoming(p: PeerId) returns (ok: bool)
      requires Valid() && !View().Connected(p)
      modifies this
      ensures Valid()
      ensures ok == old(View()).MayAccept(p)
      ensures View() == if ok then old(View()).WithConnection(p, In) else old(View())
    {
      hide Peers.NumIn, Peers.NumOut;
      var isPriority := View().IsPriority(p);
      if !isPriority && priorityOnly {
        return false;
      }
      if numIn >= maxIn && !isPriority {
        return false;
      }
      if p in nodes {
        ghost var before := View();
        SlotsAfterConnection(before, p, In);
        nodes := nodes[p := nodes[p].(connection := In)];
        if !isPriority {
          numIn := numIn + 1;
        }
        return true;
      }
      return false;
    }

    /** Replaces a priority group.  The counters follow: members that lose their last group start to occupy
        a slot, members that gain their first group release theirs. */
    method SetPriorityGroup(group: string, peers: set<PeerId>)
      requires Valid()
      modifies this
      ensures Valid() && View() == old(View()).WithGroup(group, peers)
    {
      ghost var before := View();
      SlotsWithGroup(before, group, peers, In);
      SlotsWithGroup(before, group, peers, Out);
      numIn, numOut := CountFormerMembers(View(), group, numIn, numOut);
      nodes, numIn, numOut := DiscountMembers(View(), group, peers, numIn, numOut);
      priorityNodes := priorityNodes[group := peers];
      assert nodes == before.WithGroup(group, peers).nodes;
    }

    /** The counters as if `group` did not exist. */
    static method CountFormerMembers(s: Peers, group: string, numIn: nat, numOut: nat) returns (newIn: nat, newOut: nat)
      requires numIn == s.NumIn() && numOut == s.NumOut()
      ensures newIn == |SlotsWithout(s, group, {}, In)| && newOut == |SlotsWithout(s, group, {}, Out)|
    {
      newIn, newOut := numIn, numOut;
      var todo := s.Group(group);
      SlotsOfFormer(s, group, In);
      SlotsOfFormer(s, group, Out);
      while todo != {}
        invariant todo <= s.Group(group)
        invariant newIn == |SlotsWithout(s, group, todo, In)| && newOut == |SlotsWithout(s, group, todo, Out)|
        decreases todo
      {
        var id :| id in todo;
        FormerMemberStep(s, group, todo, id, In);
        FormerMemberStep(s, group, todo, id, Out);
        if !s.PriorityElsewhere(id, group) && id in s.nodes {
          match s.nodes[id].connection
          case In => newIn := newIn + 1;
          case Out => newOut := newOut + 1;
          case NotConnected =>
        }
        todo := todo - {id};
      }
    }

    /** The table and counters with the new members of `group` in it, inserting those not known yet. */
    static method DiscountMembers(s: Peers, group: string, peers: set<PeerId>, numIn: nat, numOut: nat)
      returns (nodes: map<PeerId, Node>, newIn: nat, newOut: nat)
      requires s.GroupsKnown() && Discounted(s, group, peers, peers, s.nodes, numIn, numOut)
      ensures Discounted(s, group, peers, {}, nodes, newIn, newOut)
    {
      nodes, newIn, newOut := s.nodes, numIn, numOut;
      var todo := peers;
      while todo != {}
        invariant todo <= peers
        invariant Discounted(s, group, peers, todo, nodes, newIn, newOut)
        decreases todo
      {
        var id :| id in todo;
        nodes, newIn, newOut := DiscountMember(s, group, id, nodes, newIn, newOut, peers, todo);
        todo := todo - {id};
      }
    }

    static method DiscountMember(s: Peers, group: string, id: PeerId, nodes: map<PeerId, Node>, numIn: nat, numOut: nat,
                                 ghost peers: set<PeerId>, ghost todo: set<PeerId>)
      returns (nodes': map<PeerId, Node>, newIn: nat, newOut: nat)
      requires s.GroupsKnown() && id in todo && todo <= peers && Discounted(s, group, peers, todo, nodes, numIn, numOut)
      ensures Discounted(s, group, peers, todo - {id}, nodes', newIn, newOut)
    {
      nodes', newIn, newOut := nodes, numIn, numOut;
      RemainingStep(s, group, peers, todo, id, In);
      RemainingStep(s, group, peers, todo, id, Out);
      if !s.PriorityElsewhere(id, group) {
        if id !in nodes' {
          nodes' := nodes'[id := DEFAULT_NODE];
        }
        match nodes'[id].connection
        case In => newIn := newIn - 1;
        case Out => newOut := newOut - 1;
        case NotConnected =>
      }
    }

    method AddToPriorityGroup(group: string, p: PeerId)
      requires Valid()
      modifies this
      ensures Valid() && View() == old(View()).WithGroup(group, old(View()).Group(group) + {p})
    {
      SetPriorityGroup(group, View().Group(group) + {p});
    }

    method RemoveFromPriorityGroup(group: string, p: PeerId)
      requires Valid()
      modifies this
      ensures Valid() && View() == old(View()).WithGroup(group, old(View()).Group(group) - {p})
    {
      SetPriorityGroup(group, View().Group(group) - {p});
    }

    method SetPriorityOnly(priority: bool)
      requires Valid()
      modifies this
      ensures Valid() && View() == old(View()).(priorityOnly := priority)
    {
      ghost var before := View();
      priorityOnly := priority;
      assert forall q :: View().IsPriority(q) == before.IsPriority(q);
      assert View().Occupants(In) == before.Occupants(In) && View().Occupants(Out) == before.Occupants(Out);
    }

    method SetReputation(p: PeerId, value: i32)
      requires Valid()
      modifies this
      ensures Valid() && View() == old(View()).WithReputation(p, value)
    {
      OccupantsAfterReputation(View(), p, value, In);
      OccupantsAfterReputation(View(), p, value, Out);
      nodes := nodes[p := View().NodeOrDefault(p).(reputation := value)];
    }

    /** Adds to the score of a peer, inserting unknown peers; the value is capped. */
    method AddReputation(p: PeerId, modifier: i32)
      requires Valid()
      modifies this
      ensures Valid()
      ensures View() == old(View()).WithReputation(p, Saturate(old(View()).Reputation(p) + modifier))
    {
      SetReputation(p, Saturate(View().Reputation(p) + modifier));
    }

    method Discover(p: PeerId)
      requires Valid() && p !in nodes
      modifies this
      ensures Valid() && View() == old(View()).Discovered(p)
    {
      OccupantsAfterReputation(View(), p, 0, In);
      OccupantsAfterReputation(View(), p, 0, Out);
      nodes := nodes[p := DEFAULT_NODE];
    }

    /** Some idle member of some priority group; which one is unspecified. */
    method PriorityNotConnectedPeer() returns (r: Option<PeerId>)
      ensures r.Some? ==> View().IsPriority(r.value) && View().Idle(r.value)
      ensures r.None? ==> forall p :: View().IsPriority(p) ==> !View().Idle(p)
    {
      var todo := priorityNodes.Keys;
      while todo != {}
        invariant todo <= priorityNodes.Keys
        invariant forall g, p :: g in priorityNodes.Keys - todo && p in priorityNodes[g] ==> !View().Idle(p)
        decreases todo
      {
        var g :| g in todo;
        r := PriorityNotConnectedPeerFromGroup(g);
        if r.Some? {
          return;
        }
        todo := todo - {g};
      }
      r := None;
    }

    method PriorityNotConnectedPeerFromGroup(group: string) returns (r: Option<PeerId>)
      ensures r.Some? ==> r.value in View().Group(group) && View().Idle(r.value)
      ensures r.None? ==> forall p :: p in View().Group(group) ==> !View().Idle(p)
    {
      var todo := View().Group(group);
      while todo != {}
        invariant todo <= View().Group(group)
        invariant forall p :: p in View().Group(group) - todo ==> !View().Idle(p)
        decreases todo
      {
        var p :| p in todo;
        if p in nodes && nodes[p].connection == NotConnected {
          return Some(p);
        }
        todo := todo - {p};
      }
      return None;
    }

    /** The idle peer with the highest reputation, found by one pass over the table in any order. */
    method HighestNotConnectedPeer() returns (r: Option<PeerId>)
      ensures r.Some? ==> View().Idle(r.value)
      ensures r.Some? ==> forall q :: View().Idle(q) ==> View().Reputation(q) <= View().Reputation(r.value)
      ensures r.None? ==> forall q :: !View().Idle(q)
    {
      r := None;
      var todo := nodes.Keys;
      while todo != {}
        invariant todo <= nodes.Keys
        invariant r.Some? ==> View().Idle(r.value)
        invariant r.Some? ==> forall q :: View().Idle(q) && q !in todo ==> View().Reputation(q) <= View().Reputation(r.value)
        invariant r.None? ==> forall q :: View().Idle(q) ==> q in todo
        decreases todo
      {
        var p :| p in todo;
        if nodes[p].connection == NotConnected {
          if r.None? || nodes[r.value].reputation < nodes[p].reputation {
            r := Some(p);
          }
        }
        todo := todo - {p};
      }
    }
  }

  /** The occupants of slot kind `c` when `group` consists of the members of `peers` that are not in `todo`. */
  ghost function Remaining(s: Peers, group: string, peers: set<PeerId>, todo: set<PeerId>, c: Connection): set<PeerId> {
    set p | p in s.nodes && s.TakesSlotWithout(p, group, c) && (p in peers ==> p in todo)
  }

  /** The table with those members inserted, and its counters. */
  ghost predicate Discounted(s: Peers, group: string, peers: set<PeerId>, todo: set<PeerId>,
                             nodes: map<PeerId, Node>, numIn: nat, numOut: nat)
  {
    && (forall p :: p in nodes <==> p in s.nodes || (p in peers && p !in todo))
    && (forall p :: p in nodes ==> nodes[p] == s.NodeOrDefault(p))
    && numIn == |Remaining(s, group, peers, todo, In)|
    && numOut == |Remaining(s, group, peers, todo, Out)|
  }

  lemma RemainingStep(s: Peers, group: string, peers: set<PeerId>, todo: set<PeerId>, id: PeerId, c: Connection)
    requires id in todo && id in peers
    ensures |Remaining(s, group, peers, todo - {id}, c)| ==
            |Remaining(s, group, peers, todo, c)| - if s.TakesSlotWithout(id, group, c) then 1 else 0
    ensures s.TakesSlotWithout(id, group, c) ==> |Remaining(s, group, peers, todo, c)| > 0
  {
    var before := Remaining(s, group, peers, todo, c);
    var after := Remaining(s, group, peers, todo - {id}, c);
    if s.TakesSlotWithout(id, group, c) {
      assert id in before;
      assert after == before - {id};
    } else {
      assert after == before;
    }
  }

  /** The occupants of slot kind `c` without `group`, leaving out `todo`. */
  ghost function SlotsWithout(s: Peers, group: string, todo: set<PeerId>, c: Connection): set<PeerId> {
    set p | p in s.nodes && s.TakesSlotWithout(p, group, c) && p !in todo
  }

  lemma SlotsOfFormer(s: Peers, group: string, c: Connection)
    ensures SlotsWithout(s, group, s.Group(group), c) == s.Occupants(c)
  {
    forall p {
      PriorityAfterGroup(s, group, {}, p);
    }
  }

  lemma FormerMemberStep(s: Peers, group: string, todo: set<PeerId>, id: PeerId, c: Connection)
    requires id in todo
    ensures |SlotsWithout(s, group, todo - {id}, c)| ==
            |SlotsWithout(s, group, todo, c)| + if s.TakesSlotWithout(id, group, c) then 1 else 0
  {
    var before := SlotsWithout(s, group, todo, c);
    var after := SlotsWithout(s, group, todo - {id}, c);
    if s.TakesSlotWithout(id, group, c) {
      assert after == before + {id};
    } else {
      assert after == before;
    }
  }

  lemma SlotsWithGroup(s: Peers, group: string, members: set<PeerId>, c: Connection)
    requires c != NotConnected
    requires s.GroupsKnown()
    ensures s.WithGroup(group, members).GroupsKnown()
    ensures s.WithGroup(group, members).Occupants(c) == Remaining(s, group, members, {}, c)
    ensures SlotsWithout(s, group, {}, c) == Remaining(s, group, members, members, c)
  {
    forall p {
      PriorityAfterGroup(s, group, members, p);
    }
  }
}
