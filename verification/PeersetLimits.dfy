/** What regrouping does to the slots: exactly when a slot is overdrawn, and a run that does it. */
module PeersetLimits {
  import opened Basics
  import opened PeerTable
  import opened PeersetModel
  import opened PeersetMessages
  import opened PeersetRuns

  /** Both kinds of slots are within their limits. */
  ghost predicate WithinSlots(peers: Peers) { peers.NumIn() <= peers.maxIn && peers.NumOut() <= peers.maxOut }

  /** The occupants of a slot of kind `c` that gain their first priority group between two tables. */
  function Promoted(before: Peers, after: Peers, c: Connection): set<PeerId> {
    set p | p in before.Occupants(c) && after.IsPriority(p)
  }

  /** With `group` replaced by `members`, more than `max` connected peers of kind `c` are in no group. */
  predicate Overfills(peers: Peers, r: Regrouping, c: Connection, max: nat) {
    var after := peers.WithGroup(r.group, r.members);
    |peers.Occupants(c)| - |Promoted(peers, after, c)| + |Demoted(peers, after, c)| > max
  }

  /** The step replaces a group so that more peers are demoted than slots are free or become free. */
  predicate IsOverdrawing(s: State, l: Label) {
    var r := Regroups(s, l);
    r.Some? && (Overfills(s.peers, r.value, In, s.peers.maxIn) || Overfills(s.peers, r.value, Out, s.peers.maxOut))
  }

  /** A regrouping gives back the slots of the promoted and takes one for each of the demoted. */
  lemma RegroupCount(peers: Peers, r: Regrouping, c: Connection)
    requires c != NotConnected
    ensures var after := peers.WithGroup(r.group, r.members);
            |after.Occupants(c)| == |peers.Occupants(c)| - |Promoted(peers, after, c)| + |Demoted(peers, after, c)|
  {
    hide Peers.IsPriority;
    var after := peers.WithGroup(r.group, r.members);
    RegroupOccupants(peers, r, c);
    ExchangeSize(peers.Occupants(c), Promoted(peers, after, c), Demoted(peers, after, c), after.Occupants(c));
  }

  lemma RegroupOccupants(peers: Peers, r: Regrouping, c: Connection)
    requires c != NotConnected
    ensures var after := peers.WithGroup(r.group, r.members);
            after.Occupants(c) == peers.Occupants(c) - Promoted(peers, after, c) + Demoted(peers, after, c)
  {
    hide Peers.IsPriority;
    var after := peers.WithGroup(r.group, r.members);
    forall p
      ensures p in after.nodes && after.nodes[p].connection == c <==> p in peers.nodes && peers.nodes[p].connection == c
    {
    }
  }

  lemma ExchangeSize(before: set<PeerId>, gone: set<PeerId>, come: set<PeerId>, after: set<PeerId>)
    requires gone <= before && come !! before && after == before - gone + come
    ensures |after| == |before| - |gone| + |come|
  {
    assert before == (before - gone) + gone;
  }

  /** Slot allocation never overdraws a slot, and never makes up for one that is overdrawn. */
  lemma AllocationCount(s: State, now: nat, ids: seq<PeerId>, s': State)
    requires s.Ok() && s.latest <= now && SlotsAllocated(s, now, ids, s')
    ensures s'.peers.maxIn == s.peers.maxIn && s'.peers.maxOut == s.peers.maxOut
    ensures s'.peers.NumIn() == s.peers.NumIn()
    ensures s'.peers.NumOut() > s'.peers.maxOut <==> s.peers.NumOut() > s.peers.maxOut
  {
    hide SlotsAllocated, Peers.Occupants;
    AllocationOccupants(s, now, ids, s');
    SubsetSize(s.peers.Occupants(Out), s'.peers.Occupants(Out));
  }

  lemma RegroupedCount(s: State, r: Regrouping, now: nat, ids: seq<PeerId>, s': State)
    requires s.Ok() && s.latest <= now && SlotsAllocated(s.(peers := s.peers.WithGroup(r.group, r.members)), now, ids, s')
    ensures s'.peers.maxIn == s.peers.maxIn && s'.peers.maxOut == s.peers.maxOut
    ensures s'.peers.NumIn() > s'.peers.maxIn <==> Overfills(s.peers, r, In, s.peers.maxIn)
    ensures s'.peers.NumOut() > s'.peers.maxOut <==> Overfills(s.peers, r, Out, s.peers.maxOut)
  {
    hide SlotsAllocated;
    var t := s.(peers := s.peers.WithGroup(r.group, r.members));
    GroupKeepsConnections(s.peers, r.group, r.members);
    AllocationCount(t, now, ids, s');
    RegroupCount(s.peers, r, In);
    RegroupCount(s.peers, r, Out);
  }

  /** After a step that replaces a group, together with its slot allocation: whether a slot is overdrawn. */
  lemma RegroupOverdraft(s: State, l: Label, s': State)
    requires s.Ok() && Steps(s, l, s') && Regroups(s, l).Some?
    ensures s'.peers.NumIn() > s'.peers.maxIn <==> Overfills(s.peers, Regroups(s, l).value, In, s.peers.maxIn)
    ensures s'.peers.NumOut() > s'.peers.maxOut <==> Overfills(s.peers, Regroups(s, l).value, Out, s.peers.maxOut)
  {
    hide SlotsAllocated, Overfills, ReservedRemoved, Peers.WithGroup;
    var r := Regroups(s, l).value;
    var t := s.(rx := s.rx[1..]);
    if s.rx[0].RemoveReservedPeer? {
      RemovalOnlyRegroups(t, s.rx[0].peer);
      RemovalCount(s.peers, r);
    } else {
      RegroupedCount(t, r, l.now, l.ids, s');
    }
  }

  lemma RemovalCount(peers: Peers, r: Regrouping)
    ensures var after := peers.WithGroup(r.group, r.members);
            && (after.NumIn() > after.maxIn <==> Overfills(peers, r, In, peers.maxIn))
            && (after.NumOut() > after.maxOut <==> Overfills(peers, r, Out, peers.maxOut))
  {
    RegroupCount(peers, r, In);
    RegroupCount(peers, r, Out);
  }

  /** Every other step leaves the groups alone, or drops the one peer that it takes out of a group. */
  lemma OtherGroups(s: State, l: Label, s': State)
    requires s.Ok() && Steps(s, l, s') && Regroups(s, l).None?
    ensures s'.peers.groups == s.peers.groups || (l.op.Act? && s.rx[0].RemoveReservedPeer?)
  {
    if l.op.Discover? {
      DiscoveryShrinks(s.peers, l.op.ids);
    }
  }

  lemma DropCount(s: State, p: PeerId)
    requires s.reservedOnly && s.peers.Connected(p) && WithinSlots(s.peers)
    ensures WithinSlots(ReservedRemoved(s, p).peers)
  {
    var after := ReservedRemoved(s, p).peers;
    forall q
      ensures q != p ==> after.IsPriority(q) == s.peers.IsPriority(q)
    {
      PriorityAfterGroup(s.peers, RESERVED_NODES, s.peers.Group(RESERVED_NODES) - {p}, q);
      assert after.IsPriority(q) == s.peers.WithGroup(RESERVED_NODES, s.peers.Group(RESERVED_NODES) - {p}).IsPriority(q);
    }
    SubsetSize(after.Occupants(In), s.peers.Occupants(In));
    SubsetSize(after.Occupants(Out), s.peers.Occupants(Out));
  }

  lemma SameGroupsCount(before: Peers, after: Peers)
    requires BothBounded(before, after) && after.groups == before.groups && WithinSlots(before)
    ensures WithinSlots(after)
  {
    assert forall p :: after.IsPriority(p) == before.IsPriority(p);
    assert Demoted(before, after, In) == {} && Demoted(before, after, Out) == {};
    CountBound(before, after, In, after.maxIn);
    CountBound(before, after, Out, after.maxOut);
  }

  /** Exactly when a step overdraws a slot. */
  lemma StepOverdraft(s: State, l: Label, s': State)
    requires s.Ok() && Steps(s, l, s') && WithinSlots(s.peers)
    ensures WithinSlots(s'.peers) <==> !IsOverdrawing(s, l)
  {
    hide BothBounded, SlotsAllocated, Overfills, ReservedRemoved;
    if Regroups(s, l).Some? {
      RegroupOverdraft(s, l, s');
    } else if l.op.Act? && s.rx[0].RemoveReservedPeer? {
      DropCount(s.(rx := s.rx[1..]), s.rx[0].peer);
    } else {
      OtherGroups(s, l, s');
      StepBounded(s, l, s');
      SameGroupsCount(s.peers, s'.peers);
    }
  }

  /** Over any run, both kinds of slots stay within their limits if and only if no step demotes more connected peers than
      there are slots for. */
  lemma {:induction false} OverdraftCondition(states: seq<State>, labels: seq<Label>, k: nat)
    requires IsRun(states, labels) && k <= |labels|
    ensures (forall i :: 0 <= i <= k ==> WithinSlots(states[i].peers)) <==>
            (forall i :: 0 <= i < k ==> !IsOverdrawing(states[i], labels[i]))
    decreases k
  {
    hide WithinSlots, IsOverdrawing, Started, Next;
    if k == 0 {
      StartWithin(states[0]);
    } else {
      OverdraftCondition(states, labels, k - 1);
      OverdraftOnlyByDemotion(states, labels, k - 1);
      assert Steps(states[k - 1], labels[k - 1], states[k - 1 + 1]);
      if WithinSlots(states[k - 1].peers) {
        StepOverdraft(states[k - 1], labels[k - 1], states[k]);
      }
    }
  }

  lemma StartWithin(s: State)
    requires Started(s)
    ensures WithinSlots(s.peers)
  {
    StartBounded(s);
  }

  // ----- a run that overdraws a slot

  /** A manager without slots and with one reserved peer, just after its first slot allocation. */
  function Example(only: bool, queue: seq<Message>, rx: seq<Action>, members: set<PeerId>): State {
    State(Peers(map[1 := DEFAULT_NODE.(connection := Out)], map[RESERVED_NODES := members], 0, 0, only), only, rx, queue, 0, 0)
  }

  lemma ExampleStarts(only: bool)
    ensures Started(Example(only, [Connect(1)], [], {1}))
  {
    var s := Example(only, [Connect(1)], [], {1});
    var s0 := s.(peers := s.peers.(nodes := map[1 := DEFAULT_NODE]), queue := []);
    ExampleAllocates(only, s0.peers, s.peers);
    hide Allocated;
    assert TimeUpdated(s0, 0) == s0;
    assert ConnectAll([1]) == [Connect(1)];
    assert s0.peers.ConnectedPeers() == {};
    assert Configured(s0, 0) && SlotsAllocated(s0, 0, [1], s);
  }

  lemma ExampleAllocates(only: bool, before: Peers, after: Peers)
    requires before == Peers(map[1 := DEFAULT_NODE], map[RESERVED_NODES := {1}], 0, 0, only)
    requires after == before.(nodes := map[1 := DEFAULT_NODE.(connection := Out)])
    ensures Allocated(before, only, [1], after)
  {
    assert before.groups[RESERVED_NODES] == {1} == after.groups[RESERVED_NODES];
    assert after == Dialled(before, [1]);
    assert before.IsPriority(1) && after.IsPriority(1);
    assert after.Occupants(Out) == {};
  }

  /** With the group emptied, slot allocation finds nothing to do. */
  lemma ExampleRests(only: bool)
    ensures var s := Example(only, [], [], {}); SlotsAllocated(s, 0, [], s)
    ensures Example(only, [], [], {}).peers.Occupants(Out) == {1}
  {
    var s := Example(only, [], [], {});
    assert !s.peers.IsPriority(1);
    assert s.peers.Occupants(Out) == {1};
    assert forall p :: !s.peers.Idle(p);
    assert TimeUpdated(s, 0) == s;
    assert Dialled(s.peers, []) == s.peers;
  }

  lemma ExampleRegroups(only: bool)
    ensures Next(Example(only, [], [SetPriorityGroup(RESERVED_NODES, {})], {1}), Act, 0, [], Example(only, [], [], {}))
  {
    hide SlotsAllocated;
    var s, s' := Example(only, [], [], {1}), Example(only, [], [], {});
    assert s.(peers := s.peers.WithGroup(RESERVED_NODES, {})) == s' by {
      assert s'.peers == s.peers.WithGroup(RESERVED_NODES, {});
    }
    assert [SetPriorityGroup(RESERVED_NODES, {})][1..] == [];
    ExampleRests(only);
  }

  lemma ExampleDemotes(only: bool, queue: seq<Message>, rx: seq<Action>)
    ensures Demoted(Example(only, queue, rx, {1}).peers, Example(only, [], [], {}).peers, Out) == {1}
  {
    var s, s' := Example(only, queue, rx, {1}).peers, Example(only, [], [], {}).peers;
    assert s.groups[RESERVED_NODES] == {1};
    assert s.IsPriority(1) && !s'.IsPriority(1);
  }

  /** A connected reserved peer is taken out of its group: the run ends with a slot in use where there is none, and in
      reserved-only mode with a connected peer that is in no group. */
  lemma OverdraftHappens(only: bool) returns (states: seq<State>, labels: seq<Label>)
    ensures IsRun(states, labels)
    ensures var s := states[|labels|];
            && s.peers.NumOut() == 1 > s.peers.maxOut && Demotions(states, |labels|, Out) == 1
            && s.reservedOnly == only && (only ==> !ReservedSafe(s))
  {
    hide SlotsAllocated, Acted, Started;
    var regroup := SetPriorityGroup(RESERVED_NODES, {});
    ExampleStarts(only);
    ExampleRests(only);
    ExampleRegroups(only);
    ExampleDemotes(only, [], [regroup]);
    states := [Example(only, [Connect(1)], [], {1}), Example(only, [], [], {1}), Example(only, [], [regroup], {1}),
               Example(only, [], [], {})];
    labels := [Label(Take, 0, []), Label(Send(regroup), 0, []), Label(Act, 0, [])];
    assert [Connect(1)][1..] == [];
    assert Steps(states[0], labels[0], states[1]) && Steps(states[1], labels[1], states[2]) && Steps(states[2], labels[2], states[3]);
    assert Demoted(states[0].peers, states[1].peers, Out) == {} && Demoted(states[1].peers, states[2].peers, Out) == {};
    assert Demotions(states, 1, Out) == 0 && Demotions(states, 2, Out) == 0;
    assert states[3].peers.Connected(1) && !states[3].peers.IsPriority(1) by {
      assert 1 in states[3].peers.Occupants(Out);
    }
  }
}
