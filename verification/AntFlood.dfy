/** Ant routing, first step: query messages flood the channel graph, each carrying the path it took. */
module AntFlood {
  import opened AntRoute

  /** A query under way to node `to`.  `sender` is the node that searches for a route and hears of matches; both ends of
      the search launch floods in its name. */
  datatype Query = Query(sender: Address, to: Address, path: seq<Hop>)
  {
    /** The node that launched the flood. */
    function Origin(): Address
      requires path != []
    {
      path[0].local
    }
  }

  /** The nodes a path visits, its origin first. */
  function Visited(origin: Address, path: seq<Hop>): seq<Address> {
    [origin] + seq(|path|, i requires 0 <= i < |path| => path[i].remote)
  }

  predicate NoRepeats(s: seq<Address>) { forall i, j :: 0 <= i < j < |s| ==> s[i] != s[j] }

  /** A fixed channel graph: the peers of every node, each listed once, and no channel to oneself. */
  datatype Graph = Graph(peers: map<Address, seq<Address>>)
  {
    predicate Valid() {
      forall a :: a in peers ==> NoRepeats(peers[a]) && forall i :: 0 <= i < |peers[a]| ==> peers[a][i] != a && peers[a][i] in peers
    }

    predicate Channel(a: Address, b: Address) { a in peers && b in peers[a] }
  }

  /** The query has travelled along channels from its origin to its recipient without visiting a node twice. */
  ghost predicate SimplePath(g: Graph, q: Query) {
    && q.path != [] && q.Origin() in g.peers && q.to in g.peers
    && IsWalk(q.path, q.Origin(), q.to)
    && (forall i :: 0 <= i < |q.path| ==> g.Channel(q.path[i].local, q.path[i].remote))
    && NoRepeats(Visited(q.Origin(), q.path))
  }

  /** The nodes already on the path, as the forwarding node collects them. */
  function Seen(path: seq<Hop>): set<Address> {
    (set i | 0 <= i < |path| :: path[i].remote) + (set i | 0 <= i < |path| :: path[i].local)
  }

  function Unseen(peers: seq<Address>, seen: set<Address>): seq<Address>
    decreases |peers|
  {
    if peers == [] then []
    else Unseen(peers[..|peers| - 1], seen) + if peers[|peers| - 1] in seen then [] else [peers[|peers| - 1]]
  }

  datatype Quote = Quote(localBalance: u64, remoteBalance: u64, totalPay: u64)

  /** Sends a query on to every channel peer not yet on its path.  The ledger may fail to quote a channel, which ends
      the sending there. */
  method SendAntQueryMessage(self: Address, sender: Address, path: seq<Hop>, channels: seq<Address>,
                             quotes: map<Address, Quote>) returns (sent: seq<Query>)
    ensures Forwarded(self, sender, path, channels, sent)
    ensures var targets := Unseen(channels, Seen(path)); |sent| < |targets| ==> targets[|sent|] !in quotes
    ensures forall i :: 0 <= i < |sent| ==> IsQuoted(quotes, sent[i])
  {
    var already := {};
    for i := 0 to |path|
      invariant already == Seen(path[..i])
    {
      already := already + {path[i].remote};
      already := already + {path[i].local};
      SeenStep(path, i);
    }
    assert path[..|path|] == path;
    sent := [];
    for n := 0 to |channels|
      invariant |sent| == |Unseen(channels[..n], already)|
      invariant forall i :: 0 <= i < |sent| ==> IsQuoted(quotes, sent[i])
      invariant forall i :: 0 <= i < |sent| ==> Continues(self, sender, path, Unseen(channels[..n], already)[i], sent[i])
    {
      assert channels[..n + 1][..n] == channels[..n];
      if channels[n] in already {
        continue;
      }
      if channels[n] !in quotes {
        UnseenPrefix(channels, already, n);
        UnseenPrefix(channels, already, n + 1);
        return;
      }
      var quote := quotes[channels[n]];
      sent := sent + [Query(sender, channels[n], path + [Hop(self, channels[n], quote.localBalance, quote.remoteBalance, quote.totalPay)])];
    }
    assert channels[..|channels|] == channels;
  }

  /** The last hop of the query carries the balances and the pay quoted for its far end. */
  predicate IsQuoted(quotes: map<Address, Quote>, q: Query) {
    && q.path != []
    && var hop := q.path[|q.path| - 1];
    hop.remote in quotes && quotes[hop.remote] == Quote(hop.localBalance, hop.remoteBalance, hop.totalPay)
  }

  ghost predicate Continues(self: Address, sender: Address, path: seq<Hop>, next: Address, q: Query) {
    && q.sender == sender && q.to == next && |q.path| == |path| + 1 && q.path[..|path|] == path
    && q.path[|path|].local == self && q.path[|path|].remote == next
  }

  /** What a node may send on: to the channel peers off the path, in order, up to where a quote failed. */
  ghost predicate Forwarded(self: Address, sender: Address, path: seq<Hop>, channels: seq<Address>, sent: seq<Query>) {
    var targets := Unseen(channels, Seen(path));
    |sent| <= |targets| && forall i :: 0 <= i < |sent| ==> Continues(self, sender, path, targets[i], sent[i])
  }

  lemma SeenStep(path: seq<Hop>, i: nat)
    requires i < |path|
    ensures Seen(path[..i + 1]) == Seen(path[..i]) + {path[i].remote} + {path[i].local}
  {
    assert path[..i + 1] == path[..i] + [path[i]];
    var longer := path[..i + 1];
    forall a
      ensures a in Seen(longer) <==> a in Seen(path[..i]) || a == path[i].remote || a == path[i].local
    {
      if a == path[i].remote || a == path[i].local {
        assert longer[i] == path[i];
      }
      if a in Seen(path[..i]) {
        var j :| 0 <= j < i && (path[..i][j].remote == a || path[..i][j].local == a);
        assert longer[j] == path[..i][j];
      }
      if a in Seen(longer) {
        var j :| 0 <= j < i + 1 && (longer[j].remote == a || longer[j].local == a);
        assert j < i ==> longer[j] == path[..i][j];
      }
    }
  }

  lemma {:induction false} UnseenPrefix(peers: seq<Address>, seen: set<Address>, n: nat)
    requires n <= |peers|
    ensures Unseen(peers[..n], seen) <= Unseen(peers, seen)
    decreases |peers| - n
  {
    if n == |peers| {
      assert peers[..n] == peers;
    } else {
      assert peers[..n + 1][..n] == peers[..n];
      UnseenPrefix(peers, seen, n + 1);
    }
  }

  // ----- what travels

  lemma {:induction false} UnseenIsNew(peers: seq<Address>, seen: set<Address>)
    ensures |Unseen(peers, seen)| <= |peers|
    ensures forall i :: 0 <= i < |Unseen(peers, seen)| ==> Unseen(peers, seen)[i] in peers && Unseen(peers, seen)[i] !in seen
    decreases |peers|
  {
    if peers != [] {
      UnseenIsNew(peers[..|peers| - 1], seen);
    }
  }

  /** One more node at the end. */
  lemma VisitedMore(origin: Address, path: seq<Hop>, hop: Hop)
    ensures Visited(origin, path + [hop]) == Visited(origin, path) + [hop.remote]
  {
  }

  /** All nodes on a walk are seen. */
  lemma VisitedIsSeen(origin: Address, path: seq<Hop>, i: nat)
    requires path != [] && path[0].local == origin && i < |Visited(origin, path)|
    ensures Visited(origin, path)[i] in Seen(path)
  {
    if i == 0 {
      assert path[0].local in Seen(path);
    } else {
      assert path[i - 1].remote in Seen(path);
    }
  }

  lemma NoRepeatsMore(s: seq<Address>, a: Address)
    requires NoRepeats(s) && a !in s
    ensures NoRepeats(s + [a])
  {
  }

  /** A forwarded query has again travelled a simple path. */
  lemma ForwardKeepsSimple(g: Graph, q: Query, sent: seq<Query>, i: nat)
    requires g.Valid() && SimplePath(g, q) && Forwarded(q.to, q.sender, q.path, g.peers[q.to], sent) && i < |sent|
    ensures SimplePath(g, sent[i]) && |sent[i].path| == |q.path| + 1
    ensures sent[i].Origin() == q.Origin() && sent[i].sender == q.sender
  {
    hide Visited, NoRepeats, Seen, IsWalk;
    var targets := Unseen(g.peers[q.to], Seen(q.path));
    UnseenIsNew(g.peers[q.to], Seen(q.path));
    var next, hop := targets[i], sent[i].path[|q.path|];
    assert Continues(q.to, q.sender, q.path, next, sent[i]);
    assert sent[i].path == q.path + [hop];
    WalkExtended(q.path, q.Origin(), q.to, hop);
    VisitedMore(q.Origin(), q.path, hop);
    forall j | 0 <= j < |Visited(q.Origin(), q.path)| ensures Visited(q.Origin(), q.path)[j] != next {
      VisitedIsSeen(q.Origin(), q.path, j);
    }
    NoRepeatsMore(Visited(q.Origin(), q.path), next);
  }

  /** So has a query of a new flood, in whosever name it is launched. */
  lemma LaunchIsSimple(g: Graph, self: Address, sender: Address, sent: seq<Query>, i: nat)
    requires g.Valid() && self in g.peers && Forwarded(self, sender, [], g.peers[self], sent) && i < |sent|
    ensures SimplePath(g, sent[i]) && sent[i].Origin() == self && sent[i].sender == sender
  {
    var targets := Unseen(g.peers[self], Seen([]));
    UnseenIsNew(g.peers[self], Seen([]));
    assert Continues(self, sender, [], targets[i], sent[i]);
    assert sent[i].path[1..] == [];
    assert IsWalk(sent[i].path[1..], sent[i].path[0].remote, sent[i].to);
    assert Visited(self, sent[i].path) == [self, targets[i]];
  }

  lemma {:induction false} DistinctFit(s: seq<Address>, all: set<Address>)
    requires NoRepeats(s) && forall i :: 0 <= i < |s| ==> s[i] in all
    ensures |s| <= |all|
    decreases |s|
  {
    if s != [] {
      var last := s[|s| - 1];
      DistinctFit(s[..|s| - 1], all - {last});
    }
  }

  /** A simple path has fewer hops than the graph has nodes. */
  lemma PathIsShort(g: Graph, q: Query)
    requires g.Valid() && SimplePath(g, q)
    ensures |q.path| < |g.peers|
  {
    var visited := Visited(q.Origin(), q.path);
    forall i | 0 <= i < |visited|
      ensures visited[i] in g.peers.Keys
    {
      if i > 0 {
        var hop := q.path[i - 1];
        assert g.Channel(hop.local, hop.remote);
      }
    }
    DistinctFit(visited, g.peers.Keys);
  }

  // ----- the flood dies out

  function Pow(b: nat, e: nat): nat
    decreases e
  {
    if e == 0 then 1 else b * Pow(b, e - 1)
  }

  /** How many further deliveries a query may cause, itself included, at most. */
  function Weight(n: nat, q: Query): nat { if |q.path| <= n then Pow(n + 1, n - |q.path|) else 0 }

  function TotalWeight(n: nat, flood: seq<Query>): nat
    decreases |flood|
  {
    if flood == [] then 0 else Weight(n, flood[0]) + TotalWeight(n, flood[1..])
  }

  ghost predicate AllSimple(g: Graph, flood: seq<Query>) { forall i :: 0 <= i < |flood| ==> SimplePath(g, flood[i]) }

  /** One query of the bag is delivered.  Its recipient answers it if the seed table finds a partner, and forwards it
      otherwise. */
  ghost predicate Delivered(g: Graph, flood: seq<Query>, i: nat, matched: bool, flood': seq<Query>) {
    && i < |flood| && flood[i].to in g.peers
    && exists sent :: (if matched then sent == [] else Forwarded(flood[i].to, flood[i].sender, flood[i].path, g.peers[flood[i].to], sent))
         && flood' == flood[..i] + flood[i + 1..] + sent
  }

  lemma {:induction false} WeightOfSplit(n: nat, s: seq<Query>, t: seq<Query>)
    ensures TotalWeight(n, s + t) == TotalWeight(n, s) + TotalWeight(n, t)
    decreases |s|
  {
    if s == [] {
      assert s + t == t;
    } else {
      assert (s + t)[1..] == s[1..] + t;
      WeightOfSplit(n, s[1..], t);
    }
  }

  lemma {:induction false} WeightOfSent(n: nat, sent: seq<Query>, k: nat)
    requires k < n && forall i :: 0 <= i < |sent| ==> |sent[i].path| == k + 1
    ensures TotalWeight(n, sent) == |sent| * Pow(n + 1, n - k - 1)
    decreases |sent|
  {
    if sent != [] {
      WeightOfSent(n, sent[1..], k);
    }
  }

  lemma {:induction false} PowPositive(b: nat, e: nat)
    requires b > 0
    ensures Pow(b, e) > 0
    decreases e
  {
    if e > 0 {
      PowPositive(b, e - 1);
    }
  }

  /** What is sent on weighs less than what came in. */
  lemma ForwardLosesWeight(g: Graph, q: Query, sent: seq<Query>)
    requires g.Valid() && SimplePath(g, q) && Forwarded(q.to, q.sender, q.path, g.peers[q.to], sent)
    ensures AllSimple(g, sent) && TotalWeight(|g.peers|, sent) < Weight(|g.peers|, q)
  {
    var n, k := |g.peers|, |q.path|;
    PathIsShort(g, q);
    forall i | 0 <= i < |sent|
      ensures SimplePath(g, sent[i]) && |sent[i].path| == k + 1
    {
      ForwardKeepsSimple(g, q, sent, i);
    }
    UnseenIsNew(g.peers[q.to], Seen(q.path));
    DistinctFit(g.peers[q.to], g.peers.Keys);
    WeightOfSent(n, sent, k);
    PowPositive(n + 1, n - k - 1);
    MultiplyLess(|sent|, n, Pow(n + 1, n - k - 1));
  }

  lemma {:induction false} MultiplyLess(a: nat, n: nat, x: nat)
    requires a <= n && x > 0
    ensures a * x < (n + 1) * x
    decreases n - a
  {
    if a < n {
      MultiplyLess(a + 1, n, x);
    }
    assert (a + 1) * x == a * x + x;
  }

  lemma DeliveryLosesWeight(g: Graph, flood: seq<Query>, i: nat, matched: bool, flood': seq<Query>)
    requires g.Valid() && AllSimple(g, flood) && Delivered(g, flood, i, matched, flood')
    ensures AllSimple(g, flood') && TotalWeight(|g.peers|, flood') < TotalWeight(|g.peers|, flood)
  {
    hide SimplePath, Forwarded, Graph.Valid;
    var n := |g.peers|;
    var sent :| (if matched then sent == [] else Forwarded(flood[i].to, flood[i].sender, flood[i].path, g.peers[flood[i].to], sent))
                && flood' == flood[..i] + flood[i + 1..] + sent;
    PathIsShort(g, flood[i]);
    PowPositive(n + 1, n - |flood[i].path|);
    if !matched {
      ForwardLosesWeight(g, flood[i], sent);
    }
    WeightOfRest(n, flood, i);
    WeightOfSplit(n, flood[..i] + flood[i + 1..], sent);
  }

  lemma WeightOfRest(n: nat, flood: seq<Query>, i: nat)
    requires i < |flood|
    ensures TotalWeight(n, flood) == TotalWeight(n, flood[..i] + flood[i + 1..]) + Weight(n, flood[i])
  {
    assert flood == flood[..i] + flood[i..];
    assert flood[i..][1..] == flood[i + 1..];
    WeightOfSplit(n, flood[..i], flood[i..]);
    WeightOfSplit(n, flood[..i], flood[i + 1..]);
  }

  /** A sequence of deliveries, in any order and with any answers of the seed tables. */
  ghost predicate IsFlood(g: Graph, floods: seq<seq<Query>>, picks: seq<(nat, bool)>) {
    && |floods| == |picks| + 1
    && forall k :: 0 <= k < |picks| ==> Delivered(g, floods[k], picks[k].0, picks[k].1, floods[k + 1])
  }

  /** The flood dies out: every query in flight has travelled a simple path, and however deliveries are ordered there
      are at most as many as the queries first sent weigh. */
  lemma {:induction false} FloodDiesOut(g: Graph, floods: seq<seq<Query>>, picks: seq<(nat, bool)>, k: nat)
    requires g.Valid() && IsFlood(g, floods, picks) && AllSimple(g, floods[0]) && k <= |picks|
    ensures AllSimple(g, floods[k])
    ensures k + TotalWeight(|g.peers|, floods[k]) <= TotalWeight(|g.peers|, floods[0])
    decreases k
  {
    if k > 0 {
      FloodDiesOut(g, floods, picks, k - 1);
      DeliveryLosesWeight(g, floods[k - 1], picks[k - 1].0, picks[k - 1].1, floods[k]);
    }
  }

  // ----- the flood reaches everybody

  lemma {:induction false} UnseenIsAll(peers: seq<Address>, seen: set<Address>, a: Address)
    requires a in peers && a !in seen
    ensures a in Unseen(peers, seen)
    decreases |peers|
  {
    if peers[|peers| - 1] != a {
      UnseenIsAll(peers[..|peers| - 1], seen, a);
    }
  }

  /** One query of the bag is delivered, finds no partner, and is forwarded to everybody it can be forwarded to. */
  ghost predicate DeliveredFully(g: Graph, flood: seq<Query>, i: nat, flood': seq<Query>) {
    && i < |flood| && flood[i].to in g.peers
    && exists sent :: SentFully(g, flood[i].to, flood[i].sender, flood[i].path, sent) && flood' == flood[..i] + flood[i + 1..] + sent
  }

  ghost predicate SentFully(g: Graph, self: Address, sender: Address, path: seq<Hop>, sent: seq<Query>)
    requires self in g.peers
  {
    Forwarded(self, sender, path, g.peers[self], sent) && |sent| == |Unseen(g.peers[self], Seen(path))|
  }

  /** A flood that `origin` launches, without matches and failures, until nothing is left to deliver. */
  ghost predicate IsFullFlood(g: Graph, origin: Address, sender: Address, floods: seq<seq<Query>>, picks: seq<nat>) {
    && |floods| == |picks| + 1 && origin in g.peers
    && SentFully(g, origin, sender, [], floods[0])
    && (forall k :: 0 <= k < |picks| ==> DeliveredFully(g, floods[k], picks[k], floods[k + 1]))
    && floods[|picks|] == []
  }

  /** A way through the graph that visits no node twice. */
  ghost predicate IsWay(g: Graph, way: seq<Address>) {
    NoRepeats(way) && forall i :: 0 <= i < |way| - 1 ==> g.Channel(way[i], way[i + 1])
  }

  lemma {:induction false} FullFloodIsSimple(g: Graph, origin: Address, sender: Address, floods: seq<seq<Query>>, picks: seq<nat>, k: nat)
    requires g.Valid() && IsFullFlood(g, origin, sender, floods, picks) && k <= |picks|
    ensures AllSimple(g, floods[k]) && forall i :: 0 <= i < |floods[k]| ==> floods[k][i].Origin() == origin
    decreases k
  {
    hide Forwarded, Graph.Valid, IsWalk, NoRepeats;
    if k == 0 {
      forall i | 0 <= i < |floods[0]| ensures SimplePath(g, floods[0][i]) && floods[0][i].Origin() == origin {
        LaunchIsSimple(g, origin, sender, floods[0], i);
      }
    } else {
      FullFloodIsSimple(g, origin, sender, floods, picks, k - 1);
      assert DeliveredFully(g, floods[k - 1], picks[k - 1], floods[k - 1 + 1]);
      var q := floods[k - 1][picks[k - 1]];
      var sent: seq<Query> :| SentFully(g, q.to, q.sender, q.path, sent)
                  && floods[k] == floods[k - 1][..picks[k - 1]] + floods[k - 1][picks[k - 1] + 1..] + sent;
      forall i | 0 <= i < |sent| ensures SimplePath(g, sent[i]) && sent[i].Origin() == origin {
        ForwardKeepsSimple(g, q, sent, i);
      }
    }
  }

  /** What is in the bag at some point is delivered later. */
  lemma {:induction false} IsDeliveredLater(g: Graph, origin: Address, sender: Address, floods: seq<seq<Query>>, picks: seq<nat>, k: nat, q: Query)
    returns (m: nat)
    requires IsFullFlood(g, origin, sender, floods, picks) && k <= |picks| && q in floods[k]
    ensures m < |picks| && picks[m] < |floods[m]| && floods[m][picks[m]] == q
    decreases |picks| - k
  {
    hide SentFully;
    assert DeliveredFully(g, floods[k], picks[k], floods[k + 1]);
    if floods[k][picks[k]] == q {
      m := k;
    } else {
      var i :| 0 <= i < |floods[k]| && floods[k][i] == q;
      assert q in floods[k][..picks[k]] + floods[k][picks[k] + 1..] by {
        if i < picks[k] {
          assert floods[k][..picks[k]][i] == q;
        } else {
          assert floods[k][picks[k] + 1..][i - picks[k] - 1] == q;
        }
      }
      m := IsDeliveredLater(g, origin, sender, floods, picks, k + 1, q);
    }
  }

  /** A node that is off the path is sent to. */
  lemma SentOn(g: Graph, self: Address, sender: Address, path: seq<Hop>, sent: seq<Query>, next: Address) returns (q: Query)
    requires self in g.peers && SentFully(g, self, sender, path, sent) && g.Channel(self, next) && next !in Seen(path)
    ensures q in sent && Continues(self, sender, path, next, q)
  {
    UnseenIsAll(g.peers[self], Seen(path), next);
    var i :| 0 <= i < |Unseen(g.peers[self], Seen(path))| && Unseen(g.peers[self], Seen(path))[i] == next;
    q := sent[i];
  }

  lemma {:induction false} SeenIsVisited(path: seq<Hop>, a: Address, b: Address, x: Address)
    requires IsWalk(path, a, b) && x in Seen(path)
    ensures x in Visited(a, path)
    decreases |path|
  {
    var i :| 0 <= i < |path| && (path[i].remote == x || path[i].local == x);
    if path[i].remote == x {
      assert Visited(a, path)[i + 1] == x;
    } else if i == 0 {
      assert Visited(a, path)[0] == x;
    } else {
      var rest := path[1..];
      assert rest[i - 1] == path[i];
      assert path[i].local in Seen(rest);
      SeenIsVisited(rest, path[0].remote, b, x);
      var j :| 0 <= j < |Visited(path[0].remote, rest)| && Visited(path[0].remote, rest)[j] == x;
      assert Visited(a, path)[j + 1] == x;
    }
  }

  lemma {:induction false} WalkEnds(path: seq<Hop>, a: Address, b: Address)
    requires IsWalk(path, a, b)
    ensures Visited(a, path)[|path|] == b
    decreases |path|
  {
    if path != [] {
      WalkEnds(path[1..], path[0].remote, b);
      assert Visited(a, path)[|path|] == Visited(path[0].remote, path[1..])[|path| - 1];
    }
  }

  lemma ContinuesVisited(self: Address, sender: Address, origin: Address, path: seq<Hop>, next: Address, q: Query)
    requires Continues(self, sender, path, next, q)
    ensures Visited(origin, q.path) == Visited(origin, path) + [next]
  {
    assert q.path == path + [q.path[|path|]];
    VisitedMore(origin, path, q.path[|path|]);
  }

  /** The query that has travelled `way` is delivered.  So every node that can be reached at all hears of the search, once
      along each way without repeats that leads to it. */
  lemma {:induction false} FloodReaches(g: Graph, origin: Address, sender: Address, floods: seq<seq<Query>>, picks: seq<nat>, way: seq<Address>)
    returns (m: nat)
    requires g.Valid() && IsFullFlood(g, origin, sender, floods, picks) && IsWay(g, way) && |way| >= 2 && way[0] == origin
    ensures m < |picks| && picks[m] < |floods[m]|
    ensures Visited(origin, floods[m][picks[m]].path) == way && floods[m][picks[m]].to == way[|way| - 1]
    decreases |way|
  {
    hide Graph.Valid, Visited, Forwarded;
    var n := |way| - 1;
    var next := way[n];
    assert g.Channel(way[n - 1], way[n - 1 + 1]);
    var q: Query;
    if n == 1 {
      q := SentOn(g, origin, sender, [], floods[0], next);
      NothingVisited(origin);
      ContinuesVisited(origin, sender, origin, [], next, q);
      assert way == [origin] + [next];
      m := IsDeliveredLater(g, origin, sender, floods, picks, 0, q);
    } else {
      var before := FloodReaches(g, origin, sender, floods, picks, way[..n]);
      var q0 := floods[before][picks[before]];
      FullFloodIsSimple(g, origin, sender, floods, picks, before);
      assert SimplePath(g, q0);
      assert DeliveredFully(g, floods[before], picks[before], floods[before + 1]);
      var sent :| SentFully(g, q0.to, q0.sender, q0.path, sent)
                  && floods[before + 1] == floods[before][..picks[before]] + floods[before][picks[before] + 1..] + sent;
      if next in Seen(q0.path) {
        SeenIsVisited(q0.path, origin, q0.to, next);
        assert false;
      }
      q := SentOn(g, q0.to, q0.sender, q0.path, sent, next);
      ContinuesVisited(q0.to, q0.sender, origin, q0.path, next, q);
      assert way == way[..n] + [next];
      m := IsDeliveredLater(g, origin, sender, floods, picks, before + 1, q);
    }
  }

  lemma NothingVisited(origin: Address)
    ensures Visited(origin, []) == [origin] && Seen([]) == {}
  {
  }

  // ----- from flood to route

  ghost predicate Symmetric(g: Graph) { forall a, b :: g.Channel(a, b) ==> g.Channel(b, a) }

  lemma {:induction false} RouteHopsFromList(route: seq<Hop>, list: seq<Hop>, i: nat)
    requires UsesOnce(route, list) && i < |route|
    ensures exists k :: 0 <= k < |list| && route[i] in {list[k], list[k].Reverted()}
    decreases |route|
  {
    var k :| 0 <= k < |list| && route[0] in {list[k], list[k].Reverted()} && UsesOnce(route[1..], Without(list, k));
    if i > 0 {
      hide UsesOnce;
      RouteHopsFromList(route[1..], Without(list, k), i - 1);
      var j :| 0 <= j < |Without(list, k)| && route[1..][i - 1] in {Without(list, k)[j], Without(list, k)[j].Reverted()};
      var at := WithoutAt(list, k, j);
      assert list[at] == Without(list, k)[j] && route[i] == route[1..][i - 1];
    }
  }

  lemma WithoutAt(list: seq<Hop>, k: nat, j: nat) returns (at: nat)
    requires k < |list| && j < |Without(list, k)|
    ensures at < |list| && list[at] == Without(list, k)[j]
  {
    at := if j < k then j else j + 1;
  }

  /** When two queries meet at a node, the hops they carry rebuild a route of channels between their origins. */
  lemma MeetingAntsGiveRoute(g: Graph, q: Query, q': Query, list: seq<Hop>)
    requires g.Valid() && Symmetric(g) && SimplePath(g, q) && SimplePath(g, q') && q.to == q'.to
    requires list == q.path + q'.path || list == q'.path + q.path
    ensures var r := Route(list, q.Origin(), q'.Origin());
            && IsWalk(r, q.Origin(), q'.Origin()) && UsesOnce(r, list)
            && forall i :: 0 <= i < |r| ==> g.Channel(r[i].local, r[i].remote)
  {
    hide Route, UsesOnce, IsWalk, NoRepeats, Graph.Valid;
    var r := Route(list, q.Origin(), q'.Origin());
    RouteRebuilt(q.path, q'.path, list, q.Origin(), q'.Origin(), q.to);
    forall i | 0 <= i < |r|
      ensures g.Channel(r[i].local, r[i].remote)
    {
      RouteHopsFromList(r, list, i);
      var k :| 0 <= k < |list| && r[i] in {list[k], list[k].Reverted()};
      assert g.Channel(list[k].local, list[k].remote);
    }
  }

  function Reversed(way: seq<Address>): (r: seq<Address>)
    ensures |r| == |way|
  {
    seq(|way|, i requires 0 <= i < |way| => way[|way| - 1 - i])
  }

  lemma WayBack(g: Graph, way: seq<Address>)
    requires Symmetric(g) && IsWay(g, way)
    ensures IsWay(g, Reversed(way))
  {
    var r := Reversed(way);
    forall i | 0 <= i < |r| - 1 ensures g.Channel(r[i], r[i + 1]) {
      var j := |way| - 2 - i;
      assert g.Channel(way[j], way[j + 1]);
    }
  }

  /** Two nodes that some way over at least one other node connects find a route: the floods that both launch bring a query
      of each to the same node, and the hops of these two rebuild a route of channels from one to the other. */
  lemma SearchSucceeds(g: Graph, a: Address, b: Address, sender: Address, floods: seq<seq<Query>>, picks: seq<nat>,
                       floods': seq<seq<Query>>, picks': seq<nat>, way: seq<Address>) returns (m: nat, m': nat)
    requires g.Valid() && Symmetric(g) && IsWay(g, way) && |way| >= 3 && way[0] == a && way[|way| - 1] == b
    requires IsFullFlood(g, a, sender, floods, picks) && IsFullFlood(g, b, sender, floods', picks')
    ensures m < |picks| && picks[m] < |floods[m]| && m' < |picks'| && picks'[m'] < |floods'[m']|
    ensures var q, q' := floods[m][picks[m]], floods'[m'][picks'[m']];
            && q.to == q'.to
            && var r := Route(q.path + q'.path, a, b);
            IsWalk(r, a, b) && forall i :: 0 <= i < |r| ==> g.Channel(r[i].local, r[i].remote)
  {
    hide Graph.Valid, Visited, SentFully, DeliveredFully, Route, IsWalk;
    m := FloodReaches(g, a, sender, floods, picks, way[..2]);
    WayBack(g, way[1..]);
    m' := FloodReaches(g, b, sender, floods', picks', Reversed(way[1..]));
    FullFloodIsSimple(g, a, sender, floods, picks, m);
    FullFloodIsSimple(g, b, sender, floods', picks', m');
    var q, q' := floods[m][picks[m]], floods'[m'][picks'[m']];
    MeetingAntsGiveRoute(g, q, q', q.path + q'.path);
  }
}
