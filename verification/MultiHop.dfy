/** Relaying a payment along a route under one hash lock, and the preimage that comes back. */
module MultiHop {
  import opened Basics

  type Address = nat
  type Hash = nat
  type Preimage = nat

  datatype NextHop = NextHop(remote: Address, amount: nat)

  /** A locked payment to a channel neighbour, with the hops that are left; or a claim that shows the preimage. */
  datatype Message =
    | Transfer(to: Address, from: Address, amount: nat, hashLock: Hash, hops: seq<NextHop>)
    | Claim(to: Address, from: Address, preimage: Preimage)

  function LockOf(sha: Preimage -> Hash, m: Message): Hash {
    match m
    case Transfer(_, _, _, hashLock, _) => hashLock
    case Claim(_, _, preimage) => sha(preimage)
  }

  /** What a node remembers: preimages of its own invoices, and who sent the payments it has passed on. */
  datatype Invoices = Invoices(preimages: map<Hash, Preimage>, previous: map<Hash, Address>)

  /** How a node handles a message: its new memory and what it sends.  `accepted` is whether the channel transaction in
      the message was verified and approved; the hops are passed on either way. */
  function Handled(sha: Preimage -> Hash, inv: Invoices, self: Address, m: Message, accepted: bool): (Invoices, seq<Message>) {
    match m
    case Transfer(_, from, _, lock, hops) =>
      var claim := if accepted && lock in inv.preimages then [Claim(from, self, inv.preimages[lock])] else [];
      if hops == [] then (inv, claim)
      else (inv.(previous := inv.previous[lock := from]), claim + [Transfer(hops[0].remote, self, hops[0].amount, lock, hops[1..])])
    case Claim(_, _, preimage) =>
      (inv, if accepted && sha(preimage) in inv.previous then [Claim(inv.previous[sha(preimage)], self, preimage)] else [])
  }

  /** The hops after the first, all with the same amount. */
  function HopsTo(vertexes: seq<Address>, amount: nat): seq<NextHop> {
    seq(|vertexes|, i requires 0 <= i < |vertexes| => NextHop(vertexes[i], amount))
  }

  class InvoiceManager {
    const sha: Preimage -> Hash
    var rHashMap: map<Hash, Preimage>
    var previousHops: map<Hash, Address>

    ghost function State(): Invoices
      reads this
    {
      Invoices(rHashMap, previousHops)
    }

    /** Every stored preimage hashes to its key. */
    ghost predicate Valid()
      reads this
    {
      Genuine(sha, State())
    }

    constructor (sha: Preimage -> Hash)
      ensures Valid() && this.sha == sha && State() == Invoices(map[], map[])
    {
      this.sha := sha;
      rHashMap, previousHops := map[], map[];
    }

    method NewInvoice(preimage: Preimage) returns (rHash: Hash)
      requires Valid()
      modifies this
      ensures Valid() && rHash == sha(preimage)
      ensures State() == Invoices(old(rHashMap)[rHash := preimage], old(previousHops))
    {
      rHash := sha(preimage);
      rHashMap := rHashMap[rHash := preimage];
    }

    method GetPreimage(rHash: Hash) returns (r: Option<Preimage>)
      requires Valid()
      ensures r.Some? <==> rHash in rHashMap
      ensures r.Some? ==> r.value == rHashMap[rHash] && sha(r.value) == rHash
    {
      if rHash in rHashMap {
        r := Some(rHashMap[rHash]);
      } else {
        r := None;
      }
    }

    method AddPreviousHop(rHash: Hash, previous: Address)
      modifies this
      ensures State() == Invoices(old(rHashMap), old(previousHops)[rHash := previous])
    {
      previousHops := previousHops[rHash := previous];
    }

    method GetPreviousHop(preimage: Preimage) returns (r: Option<Address>)
      ensures r == if sha(preimage) in previousHops then Some(previousHops[sha(preimage)]) else None
    {
      var rHash := sha(preimage);
      if rHash in previousHops {
        r := Some(previousHops[rHash]);
      } else {
        r := None;
      }
    }
  }

  ghost predicate Genuine(sha: Preimage -> Hash, inv: Invoices) {
    forall h :: h in inv.preimages ==> sha(inv.preimages[h]) == h
  }

  class RelayNode {
    const account: Address
    const invoices: InvoiceManager

    constructor (account: Address, invoices: InvoiceManager)
      ensures this.account == account && this.invoices == invoices
    {
      this.account := account;
      this.invoices := invoices;
    }

    /** The first message of a payment along `route`, which must start here and go somewhere. */
    method GetMultiHopRequest(route: seq<Address>, amount: nat, hashLock: Hash) returns (r: Option<Message>)
      ensures r.Some? <==> |route| >= 2 && route[0] == account
      ensures r.Some? ==> r.value == Transfer(route[1], account, amount, hashLock, HopsTo(route[2..], amount))
    {
      if |route| < 2 {
        return None;
      }
      var vertexes := route[1..];
      if route[0] != account {
        return None;
      }
      var receiver := vertexes[0];
      vertexes := vertexes[1..];
      var hops: seq<NextHop> := [];
      var i := 0;
      while i < |vertexes|
        invariant 0 <= i <= |vertexes| && hops == HopsTo(vertexes[..i], amount)
      {
        hops := hops + [NextHop(vertexes[i], amount)];
        i := i + 1;
      }
      assert vertexes[..i] == vertexes;
      r := Some(Transfer(receiver, account, amount, hashLock, hops));
    }

    /** A channel transaction: a transfer is claimed if the preimage is known, a claim is passed back. */
    method HandleChannelTransactionRequest(m: Message, accepted: bool) returns (sent: seq<Message>)
      requires invoices.Valid()
      ensures m.Transfer? ==> (invoices.State(), sent) == Handled(invoices.sha, invoices.State(), account, m.(hops := []), accepted)
      ensures m.Claim? ==> (invoices.State(), sent) == Handled(invoices.sha, invoices.State(), account, m, accepted)
    {
      if !accepted {
        return [];
      }
      match m
      case Transfer(_, from, _, lock, _) =>
        var preimage := invoices.GetPreimage(lock);
        sent := if preimage.Some? then [Claim(from, account, preimage.value)] else [];
      case Claim(_, _, preimage) =>
        var previous := invoices.GetPreviousHop(preimage);
        sent := if previous.Some? then [Claim(previous.value, account, preimage)] else [];
    }

    /** A transfer with hops: handled, then passed on to the next hop, and its sender remembered. */
    method HandleMultiHopReceiverChannel(m: Message, accepted: bool) returns (sent: seq<Message>)
      requires invoices.Valid() && m.Transfer?
      modifies invoices
      ensures invoices.Valid()
      ensures (invoices.State(), sent) == Handled(invoices.sha, old(invoices.State()), account, m, accepted)
    {
      sent := HandleChannelTransactionRequest(m, accepted);
      if |m.hops| > 0 {
        var hop, rest := m.hops[0], m.hops[1..];
        sent := sent + [Transfer(hop.remote, account, hop.amount, m.hashLock, rest)];
        invoices.AddPreviousHop(m.hashLock, m.from);
      }
    }
  }

  // ----- the network

  datatype Net = Net(nodes: map<Address, Invoices>, inflight: seq<Message>)

  /** Any message may be handled next; other payments and invoices may come up at any time. */
  datatype Act = Deliver(i: nat, accepted: bool) | Launch(m: Message) | Bill(a: Address, preimage: Preimage)

  function Without(s: seq<Message>, i: nat): seq<Message>
    requires i < |s|
  {
    s[..i] + s[i + 1..]
  }

  /** Messages may be accepted or refused; other payments and invoices use other locks. */
  predicate Step(sha: Preimage -> Hash, lock: Hash, n: Net, act: Act, n': Net) {
    match act
    case Deliver(i, accepted) =>
      && i < |n.inflight| && n.inflight[i].to in n.nodes
      && var m := n.inflight[i];
      var h := Handled(sha, n.nodes[m.to], m.to, m, accepted);
      n' == Net(n.nodes[m.to := h.0], Without(n.inflight, i) + h.1)
    case Launch(m) => LockOf(sha, m) != lock && n' == n.(inflight := n.inflight + [m])
    case Bill(a, preimage) =>
      && a in n.nodes && sha(preimage) != lock
      && n' == n.(nodes := n.nodes[a := n.nodes[a].(preimages := n.nodes[a].preimages[sha(preimage) := preimage])])
  }

  /** The messages under one lock. */
  function Under(sha: Preimage -> Hash, lock: Hash, s: seq<Message>): seq<Message> {
    if s == [] then []
    else (if LockOf(sha, s[0]) == lock then [s[0]] else []) + Under(sha, lock, s[1..])
  }

  lemma {:induction false} UnderSum(sha: Preimage -> Hash, lock: Hash, s: seq<Message>, t: seq<Message>)
    ensures Under(sha, lock, s + t) == Under(sha, lock, s) + Under(sha, lock, t)
    decreases |s|
  {
    hide LockOf;
    if s == [] {
      assert s + t == t;
    } else {
      UnderSum(sha, lock, s[1..], t);
      assert (s + t)[0] == s[0] && (s + t)[1..] == s[1..] + t;
      UnderFirst(sha, lock, s);
      UnderFirst(sha, lock, s + t);
      hide Under;
      var first := if LockOf(sha, s[0]) == lock then [s[0]] else [];
      assert first + (Under(sha, lock, s[1..]) + Under(sha, lock, t)) == first + Under(sha, lock, s[1..]) + Under(sha, lock, t);
    }
  }

  /** Taking out the message at `i` takes out one message under its lock, and none under another. */
  lemma UnderWithout(sha: Preimage -> Hash, lock: Hash, s: seq<Message>, i: nat)
    requires i < |s|
    ensures LockOf(sha, s[i]) != lock ==> Under(sha, lock, Without(s, i)) == Under(sha, lock, s)
    ensures LockOf(sha, s[i]) == lock && |Under(sha, lock, s)| <= 1 ==>
              Under(sha, lock, s) == [s[i]] && Under(sha, lock, Without(s, i)) == []
  {
    hide Under;
    var before, after := Under(sha, lock, s[..i]), Under(sha, lock, s[i + 1..]);
    assert Under(sha, lock, Without(s, i)) == before + after by {
      UnderSum(sha, lock, s[..i], s[i + 1..]);
    }
    assert Under(sha, lock, s) == before + (if LockOf(sha, s[i]) == lock then [s[i]] else []) + after by {
      UnderSum(sha, lock, s[..i], s[i..]);
      UnderFirst(sha, lock, s[i..]);
      assert s[..i] + s[i..] == s && s[i..][1..] == s[i + 1..];
    }
    hide Without;
    hide LockOf;
  }

  lemma UnderFirst(sha: Preimage -> Hash, lock: Hash, s: seq<Message>)
    requires s != []
    ensures Under(sha, lock, s) == (if LockOf(sha, s[0]) == lock then [s[0]] else []) + Under(sha, lock, s[1..])
  {
  }

  // ----- one payment

  /** A payment: its route without repeated nodes, the amount, and the preimage the receiver knows. */
  datatype Payment = Payment(route: seq<Address>, amount: nat, preimage: Preimage)
  {
    predicate Proper() { |route| >= 2 && forall i, j :: 0 <= i < j < |route| ==> route[i] != route[j] }

    function Last(): nat
      requires Proper()
    {
      |route| - 1
    }

    /** The `t`-th message: transfers along the route, then claims back along it, then nothing. */
    function Expected(lock: Hash, t: nat): seq<Message>
      requires Proper()
    {
      var n := Last();
      if t < n then [Transfer(route[t + 1], route[t], amount, lock, HopsTo(route[t + 2..], amount))]
      else if t < 2 * n then [Claim(route[2 * n - 1 - t], route[2 * n - t], preimage)]
      else []
    }
  }

  /** What the nodes of the route remember once `t` messages of the payment have been handled. */
  ghost predicate Remembered(lock: Hash, p: Payment, nodes: map<Address, Invoices>, t: nat)
    requires p.Proper()
  {
    && (forall j :: 0 <= j <= p.Last() ==> p.route[j] in nodes)
    && (forall j :: 0 <= j < p.Last() ==> lock !in nodes[p.route[j]].preimages)
    && lock in nodes[p.route[p.Last()]].preimages && nodes[p.route[p.Last()]].preimages[lock] == p.preimage
    && lock !in nodes[p.route[0]].previous
    && (forall j :: 1 <= j < p.Last() && j <= t ==>
          lock in nodes[p.route[j]].previous && nodes[p.route[j]].previous[lock] == p.route[j - 1])
  }

  /** `t` messages of the payment have been handled.  The next one is in flight, unless the payment has `stalled`. */
  ghost predicate Stage(sha: Preimage -> Hash, p: Payment, n: Net, t: nat, stalled: bool) {
    && p.Proper() && t <= 2 * p.Last()
    && Remembered(sha(p.preimage), p, n.nodes, t)
    && Under(sha, sha(p.preimage), n.inflight) == if stalled then [] else p.Expected(sha(p.preimage), t)
  }

  lemma HopsShift(vertexes: seq<Address>, amount: nat)
    requires vertexes != []
    ensures HopsTo(vertexes, amount) != [] && HopsTo(vertexes, amount)[0] == NextHop(vertexes[0], amount)
    ensures HopsTo(vertexes, amount)[1..] == HopsTo(vertexes[1..], amount)
  {
  }

  /** Refusing the `t`-th message stops the payment: it is the receiver's transfer or a claim.  Relays pass it on anyway. */
  predicate Stops(p: Payment, t: nat, accepted: bool)
    requires p.Proper()
  {
    t >= p.Last() - 1 && !accepted
  }

  /** Handling the expected message sends the next expected one, unless it stops the payment. */
  lemma HandledNext(sha: Preimage -> Hash, p: Payment, nodes: map<Address, Invoices>, t: nat, accepted: bool)
    requires p.Proper() && t < 2 * p.Last() && Remembered(sha(p.preimage), p, nodes, t)
    ensures var lock := sha(p.preimage); var m := p.Expected(lock, t)[0];
            && m.to in nodes
            && Handled(sha, nodes[m.to], m.to, m, accepted).1 == (if Stops(p, t, accepted) then [] else p.Expected(lock, t + 1))
            && Remembered(lock, p, nodes[m.to := Handled(sha, nodes[m.to], m.to, m, accepted).0], t + 1)
  {
    hide Handled, Remembered, HopsTo;
    if t + 1 < p.Last() {
      RelayHandles(sha, p, nodes, t, accepted);
    } else if t < p.Last() {
      ReceiverHandles(sha, p, nodes, t, accepted);
    } else {
      ClaimHandled(sha, p, nodes, t, accepted);
    }
  }

  ghost predicate SendsNext(sha: Preimage -> Hash, p: Payment, nodes: map<Address, Invoices>, t: nat, accepted: bool)
    requires p.Proper() && t < 2 * p.Last()
  {
    var lock := sha(p.preimage);
    var m := p.Expected(lock, t)[0];
    && m.to in nodes
    && Handled(sha, nodes[m.to], m.to, m, accepted).1 == (if Stops(p, t, accepted) then [] else p.Expected(lock, t + 1))
    && Remembered(lock, p, nodes[m.to := Handled(sha, nodes[m.to], m.to, m, accepted).0], t + 1)
  }

  /** A relay passes the transfer on and remembers its sender. */
  lemma RelayHandles(sha: Preimage -> Hash, p: Payment, nodes: map<Address, Invoices>, t: nat, accepted: bool)
    requires p.Proper() && t + 1 < p.Last() && Remembered(sha(p.preimage), p, nodes, t)
    ensures SendsNext(sha, p, nodes, t, accepted)
  {
    hide HopsTo, Remembered;
    HopsShift(p.route[t + 2..], p.amount);
    assert p.route[t + 2..][1..] == p.route[t + 3..];
    RelayRemembers(sha(p.preimage), p, nodes, t);
  }

  lemma RelayRemembers(lock: Hash, p: Payment, nodes: map<Address, Invoices>, t: nat)
    requires p.Proper() && t + 1 < p.Last() && Remembered(lock, p, nodes, t)
    ensures p.route[t + 1] in nodes && lock !in nodes[p.route[t + 1]].preimages
    ensures var inv := nodes[p.route[t + 1]];
            Remembered(lock, p, nodes[p.route[t + 1] := inv.(previous := inv.previous[lock := p.route[t]])], t + 1)
  {
  }

  /** The receiver shows the preimage, if it accepts. */
  lemma ReceiverHandles(sha: Preimage -> Hash, p: Payment, nodes: map<Address, Invoices>, t: nat, accepted: bool)
    requires p.Proper() && t + 1 == p.Last() && Remembered(sha(p.preimage), p, nodes, t)
    ensures SendsNext(sha, p, nodes, t, accepted)
  {
    assert p.route[t + 2..] == [];
    assert HopsTo([], p.amount) == [];
  }

  /** A node that accepts the claim passes it back to where the transfer came from; the sender has nowhere to pass it. */
  lemma ClaimHandled(sha: Preimage -> Hash, p: Payment, nodes: map<Address, Invoices>, t: nat, accepted: bool)
    requires p.Proper() && p.Last() <= t < 2 * p.Last() && Remembered(sha(p.preimage), p, nodes, t)
    ensures SendsNext(sha, p, nodes, t, accepted)
  {
    hide HopsTo;
    var m := p.Expected(sha(p.preimage), t)[0];
    assert nodes[m.to := nodes[m.to]] == nodes;
  }

  /** The payment's own message is handled. */
  lemma OwnDelivery(sha: Preimage -> Hash, p: Payment, n: Net, t: nat, stalled: bool, i: nat, accepted: bool, n': Net)
    requires Stage(sha, p, n, t, stalled) && Step(sha, sha(p.preimage), n, Deliver(i, accepted), n')
    requires LockOf(sha, n.inflight[i]) == sha(p.preimage)
    ensures !stalled && t < 2 * p.Last() && [n.inflight[i]] == p.Expected(sha(p.preimage), t)
    ensures Stage(sha, p, n', t + 1, Stops(p, t, accepted))
    ensures Handled(sha, n.nodes[n.inflight[i].to], n.inflight[i].to, n.inflight[i], accepted).1 ==
            if Stops(p, t, accepted) then [] else p.Expected(sha(p.preimage), t + 1)
  {
    hide Remembered, Handled, Under, LockOf;
    var lock, m := sha(p.preimage), n.inflight[i];
    UnderWithout(sha, lock, n.inflight, i);
    HandledNext(sha, p, n.nodes, t, accepted);
    var out := Handled(sha, n.nodes[m.to], m.to, m, accepted).1;
    UnderSum(sha, lock, Without(n.inflight, i), out);
    UnderExpected(sha, p, t + 1);
  }

  lemma UnderExpected(sha: Preimage -> Hash, p: Payment, t: nat)
    requires p.Proper()
    ensures Under(sha, sha(p.preimage), p.Expected(sha(p.preimage), t)) == p.Expected(sha(p.preimage), t)
    ensures Under(sha, sha(p.preimage), []) == []
  {
  }

  ghost predicate AllGenuine(sha: Preimage -> Hash, n: Net) { forall a :: a in n.nodes ==> Genuine(sha, n.nodes[a]) }

  /** Whatever a node sends in answer to a message carries the lock of that message. */
  lemma SameLock(sha: Preimage -> Hash, inv: Invoices, self: Address, m: Message, accepted: bool, lock: Hash)
    requires Genuine(sha, inv) && LockOf(sha, m) != lock
    ensures Under(sha, lock, Handled(sha, inv, self, m, accepted).1) == []
  {
    NothingUnder(sha, lock, Handled(sha, inv, self, m, accepted).1);
  }

  lemma {:induction false} NothingUnder(sha: Preimage -> Hash, lock: Hash, s: seq<Message>)
    requires forall i :: 0 <= i < |s| ==> LockOf(sha, s[i]) != lock
    ensures Under(sha, lock, s) == []
    decreases |s|
  {
    if s != [] {
      NothingUnder(sha, lock, s[1..]);
    }
  }

  lemma StepKeepsGenuine(sha: Preimage -> Hash, lock: Hash, n: Net, act: Act, n': Net)
    requires AllGenuine(sha, n) && Step(sha, lock, n, act, n')
    ensures AllGenuine(sha, n')
  {
  }

  /** Nodes that only change under other locks remember what the payment needs. */
  lemma StillRemembered(lock: Hash, p: Payment, nodes: map<Address, Invoices>, t: nat, a: Address, inv: Invoices)
    requires p.Proper() && Remembered(lock, p, nodes, t) && a in nodes
    requires lock in inv.preimages <==> lock in nodes[a].preimages
    requires lock in inv.preimages ==> inv.preimages[lock] == nodes[a].preimages[lock]
    requires lock in inv.previous <==> lock in nodes[a].previous
    requires lock in inv.previous ==> inv.previous[lock] == nodes[a].previous[lock]
    ensures Remembered(lock, p, nodes[a := inv], t)
  {
  }

  /** Another payment's message leaves this payment alone. */
  lemma OtherDelivery(sha: Preimage -> Hash, p: Payment, n: Net, t: nat, stalled: bool, i: nat, accepted: bool, n': Net)
    requires Stage(sha, p, n, t, stalled) && AllGenuine(sha, n) && Step(sha, sha(p.preimage), n, Deliver(i, accepted), n')
    requires LockOf(sha, n.inflight[i]) != sha(p.preimage)
    ensures Stage(sha, p, n', t, stalled)
    ensures var m := n.inflight[i]; Under(sha, sha(p.preimage), Handled(sha, n.nodes[m.to], m.to, m, accepted).1) == []
  {
    hide Under, Remembered;
    var lock, m := sha(p.preimage), n.inflight[i];
    UnderWithout(sha, lock, n.inflight, i);
    SameLock(sha, n.nodes[m.to], m.to, m, accepted, lock);
    UnderSum(sha, lock, Without(n.inflight, i), Handled(sha, n.nodes[m.to], m.to, m, accepted).1);
    StillRemembered(lock, p, n.nodes, t, m.to, Handled(sha, n.nodes[m.to], m.to, m, accepted).0);
  }

  lemma OtherLaunch(sha: Preimage -> Hash, p: Payment, n: Net, t: nat, stalled: bool, m: Message)
    requires Stage(sha, p, n, t, stalled) && LockOf(sha, m) != sha(p.preimage)
    ensures Stage(sha, p, n.(inflight := n.inflight + [m]), t, stalled)
  {
    hide Remembered;
    UnderSum(sha, sha(p.preimage), n.inflight, [m]);
    NothingUnder(sha, sha(p.preimage), [m]);
  }

  lemma OtherBill(sha: Preimage -> Hash, p: Payment, n: Net, t: nat, stalled: bool, a: Address, preimage: Preimage)
    requires Stage(sha, p, n, t, stalled) && a in n.nodes && sha(preimage) != sha(p.preimage)
    ensures Stage(sha, p, n.(nodes := n.nodes[a := n.nodes[a].(preimages := n.nodes[a].preimages[sha(preimage) := preimage])]), t, stalled)
  {
    hide Remembered;
    StillRemembered(sha(p.preimage), p, n.nodes, t, a, n.nodes[a].(preimages := n.nodes[a].preimages[sha(preimage) := preimage]));
  }

  // ----- every run

  /** The network when the payment is about to be made. */
  ghost predicate IsReady(sha: Preimage -> Hash, p: Payment, n: Net) {
    && p.Proper() && AllGenuine(sha, n) && Remembered(sha(p.preimage), p, n.nodes, 0)
    && Under(sha, sha(p.preimage), n.inflight) == []
  }

  /** A run that starts with the sender's first message, as `RelayNode.GetMultiHopRequest` makes it. */
  ghost predicate IsRun(sha: Preimage -> Hash, p: Payment, nets: seq<Net>, acts: seq<Act>) {
    && |nets| == |acts| + 1 && p.Proper() && nets[0].inflight != []
    && (var k := |nets[0].inflight| - 1;
        && IsReady(sha, p, nets[0].(inflight := nets[0].inflight[..k]))
        && nets[0].inflight[k] == Transfer(p.route[1], p.route[0], p.amount, sha(p.preimage), HopsTo(p.route[2..], p.amount)))
    && forall i :: 0 <= i < |acts| ==> Step(sha, sha(p.preimage), nets[i], acts[i], nets[i + 1])
  }

  predicate IsOurs(sha: Preimage -> Hash, lock: Hash, n: Net, act: Act) {
    act.Deliver? && act.i < |n.inflight| && LockOf(sha, n.inflight[act.i]) == lock
  }

  /** A message and whether its transaction was accepted. */
  datatype Visit = Visit(m: Message, accepted: bool)

  /** The messages of the payment handled in the first `k` steps, in order. */
  function Visits(sha: Preimage -> Hash, lock: Hash, nets: seq<Net>, acts: seq<Act>, k: nat): seq<Visit>
    requires k <= |acts| <= |nets|
  {
    if k == 0 then []
    else
      Visits(sha, lock, nets, acts, k - 1) +
      if IsOurs(sha, lock, nets[k - 1], acts[k - 1]) then [Visit(nets[k - 1].inflight[acts[k - 1].i], acts[k - 1].accepted)] else []
  }

  /** Every message handled was the one expected, and only the last can have stopped the payment. */
  predicate OnTrack(p: Payment, lock: Hash, visits: seq<Visit>)
    requires p.Proper()
  {
    && (forall t :: 0 <= t < |visits| ==> [visits[t].m] == p.Expected(lock, t))
    && (forall t :: 0 <= t < |visits| - 1 ==> !Stops(p, t, visits[t].accepted))
  }

  predicate Stalled(p: Payment, visits: seq<Visit>)
    requires p.Proper()
  {
    visits != [] && Stops(p, |visits| - 1, visits[|visits| - 1].accepted)
  }

  lemma StartStage(sha: Preimage -> Hash, p: Payment, nets: seq<Net>, acts: seq<Act>)
    requires IsRun(sha, p, nets, acts)
    ensures Stage(sha, p, nets[0], 0, false) && AllGenuine(sha, nets[0]) && OnTrack(p, sha(p.preimage), [])
  {
    hide Remembered;
    var k := |nets[0].inflight| - 1;
    UnderSum(sha, sha(p.preimage), nets[0].inflight[..k], [nets[0].inflight[k]]);
    UnderExpected(sha, p, 0);
    assert nets[0].inflight[..k] + [nets[0].inflight[k]] == nets[0].inflight;
    assert nets[0].(inflight := nets[0].inflight[..k]).nodes == nets[0].nodes;
  }

  /** What a step does to the payment. */
  lemma StepKeepsStage(sha: Preimage -> Hash, p: Payment, n: Net, t: nat, stalled: bool, act: Act, n': Net)
    requires Stage(sha, p, n, t, stalled) && AllGenuine(sha, n) && Step(sha, sha(p.preimage), n, act, n')
    ensures IsOurs(sha, sha(p.preimage), n, act) ==>
              && !stalled && [n.inflight[act.i]] == p.Expected(sha(p.preimage), t)
              && Stage(sha, p, n', t + 1, Stops(p, t, act.accepted))
    ensures !IsOurs(sha, sha(p.preimage), n, act) ==> Stage(sha, p, n', t, stalled)
  {
    hide Stage, Under, AllGenuine, Handled;
    match act
    case Deliver(i, accepted) =>
      if IsOurs(sha, sha(p.preimage), n, act) {
        OwnDelivery(sha, p, n, t, stalled, i, accepted, n');
      } else {
        OtherDelivery(sha, p, n, t, stalled, i, accepted, n');
      }
    case Launch(m) => OtherLaunch(sha, p, n, t, stalled, m);
    case Bill(a, preimage) => OtherBill(sha, p, n, t, stalled, a, preimage);
  }

  /** In every run, whatever is accepted or refused, and interleaved with other payments in any way: the payment's messages
      are handled in exactly the order transfers along the route, all with the same amount and lock, then claims back
      along it; and what is in flight for it is just the next of them, or nothing once the receiver or a later node has
      refused. */
  lemma {:induction false} RelayFollowsRoute(sha: Preimage -> Hash, p: Payment, nets: seq<Net>, acts: seq<Act>, k: nat)
    requires IsRun(sha, p, nets, acts) && k <= |acts|
    ensures AllGenuine(sha, nets[k])
    ensures var lock := sha(p.preimage); var visits := Visits(sha, lock, nets, acts, k);
            Stage(sha, p, nets[k], |visits|, Stalled(p, visits)) && OnTrack(p, lock, visits)
    decreases k
  {
    hide Stage, Step, AllGenuine, IsReady, OnTrack, Stops;
    if k == 0 {
      StartStage(sha, p, nets, acts);
    } else {
      RelayFollowsRoute(sha, p, nets, acts, k - 1);
      var lock := sha(p.preimage);
      var visits := Visits(sha, lock, nets, acts, k - 1);
      assert Step(sha, lock, nets[k - 1], acts[k - 1], nets[k - 1 + 1]);
      StepKeepsStage(sha, p, nets[k - 1], |visits|, Stalled(p, visits), acts[k - 1], nets[k]);
      StepKeepsGenuine(sha, lock, nets[k - 1], acts[k - 1], nets[k]);
      if IsOurs(sha, lock, nets[k - 1], acts[k - 1]) {
        OnTrackMore(p, lock, visits, Visit(nets[k - 1].inflight[acts[k - 1].i], acts[k - 1].accepted));
      } else {
        assert Visits(sha, lock, nets, acts, k) == visits;
      }
    }
  }

  lemma OnTrackMore(p: Payment, lock: Hash, visits: seq<Visit>, v: Visit)
    requires p.Proper() && OnTrack(p, lock, visits) && !Stalled(p, visits) && [v.m] == p.Expected(lock, |visits|)
    ensures OnTrack(p, lock, visits + [v])
  {
  }

  /** Nothing of the payment is in flight any more exactly when it has stalled, or has gone all the way to the receiver and
      the preimage all the way back to the sender, where it stops. */
  lemma RelayComplete(sha: Preimage -> Hash, p: Payment, nets: seq<Net>, acts: seq<Act>, k: nat)
    requires IsRun(sha, p, nets, acts) && k <= |acts|
    ensures var lock := sha(p.preimage); var visits := Visits(sha, lock, nets, acts, k);
            Under(sha, lock, nets[k].inflight) == [] <==> Stalled(p, visits) || |visits| == 2 * p.Last()
    ensures var visits := Visits(sha, sha(p.preimage), nets, acts, k);
            |visits| == 2 * p.Last() ==>
              && (forall t :: 0 <= t < p.Last() ==> visits[t].m.Transfer? && visits[t].m.to == p.route[t + 1]
                                                    && visits[t].m.amount == p.amount && visits[t].m.hashLock == sha(p.preimage))
              && (forall t :: p.Last() <= t < 2 * p.Last() ==>
                    visits[t].m == Claim(p.route[2 * p.Last() - 1 - t], p.route[2 * p.Last() - t], p.preimage))
  {
    hide Remembered, AllGenuine, Visits, Step, IsReady, OnTrack, Stops;
    RelayFollowsRoute(sha, p, nets, acts, k);
    var lock := sha(p.preimage);
    var visits := Visits(sha, lock, nets, acts, k);
    if |visits| == 2 * p.Last() {
      AllTheWay(p, lock, visits);
    }
  }

  lemma AllTheWay(p: Payment, lock: Hash, visits: seq<Visit>)
    requires p.Proper() && OnTrack(p, lock, visits) && |visits| == 2 * p.Last()
    ensures forall t :: 0 <= t < p.Last() ==> visits[t].m.Transfer? && visits[t].m.to == p.route[t + 1]
                                              && visits[t].m.amount == p.amount && visits[t].m.hashLock == lock
    ensures forall t :: p.Last() <= t < 2 * p.Last() ==>
              visits[t].m == Claim(p.route[2 * p.Last() - 1 - t], p.route[2 * p.Last() - t], p.preimage)
  {
  }

  // ----- who has paid without being paid

  /** The nodes that send transfers under the lock in this step. */
  function Payers(sha: Preimage -> Hash, lock: Hash, n: Net, act: Act): set<Address> {
    if act.Deliver? && act.i < |n.inflight| && n.inflight[act.i].to in n.nodes then
      var m := n.inflight[act.i];
      TransferSenders(Under(sha, lock, Handled(sha, n.nodes[m.to], m.to, m, act.accepted).1))
    else {}
  }

  function TransferSenders(s: seq<Message>): set<Address> { set m | m in s && m.Transfer? :: m.from }

  /** The nodes that accept a transfer under the lock in this step. */
  function Payees(sha: Preimage -> Hash, lock: Hash, n: Net, act: Act): set<Address> {
    if IsOurs(sha, lock, n, act) && n.inflight[act.i].Transfer? && act.accepted then {n.inflight[act.i].to} else {}
  }

  /** The nodes that have passed on the payment in the first `k` steps, and those that have accepted it. */
  function Paid(sha: Preimage -> Hash, lock: Hash, nets: seq<Net>, acts: seq<Act>, k: nat): set<Address>
    requires k <= |acts| <= |nets|
  {
    if k == 0 then {} else Paid(sha, lock, nets, acts, k - 1) + Payers(sha, lock, nets[k - 1], acts[k - 1])
  }

  function Accepted(sha: Preimage -> Hash, lock: Hash, nets: seq<Net>, acts: seq<Act>, k: nat): set<Address>
    requires k <= |acts| <= |nets|
  {
    if k == 0 then {} else Accepted(sha, lock, nets, acts, k - 1) + Payees(sha, lock, nets[k - 1], acts[k - 1])
  }

  /** The `t`-th message was handled by a relay. */
  predicate AtRelay(p: Payment, visits: seq<Visit>, t: int)
    requires p.Proper()
  {
    0 <= t < |visits| && t + 1 < p.Last()
  }

  /** As far as the visits tell: every relay reached passes the payment on, and those that accept it are told apart. */
  ghost predicate Accounts(p: Payment, visits: seq<Visit>, paid: set<Address>, accepted: set<Address>)
    requires p.Proper()
  {
    && (forall x :: x in paid <==> exists t :: AtRelay(p, visits, t) && x == p.route[t + 1])
    && (forall x :: x in accepted <==> exists t :: IsAccepted(visits, t) && t < p.Last() && x == p.route[t + 1])
  }

  predicate IsAccepted(visits: seq<Visit>, t: int) { 0 <= t < |visits| && visits[t].accepted }

  /** What the payment's own message adds. */
  lemma OwnPayers(sha: Preimage -> Hash, p: Payment, n: Net, t: nat, act: Act, n': Net)
    requires Stage(sha, p, n, t, false) && AllGenuine(sha, n) && Step(sha, sha(p.preimage), n, act, n')
    requires IsOurs(sha, sha(p.preimage), n, act)
    ensures Payers(sha, sha(p.preimage), n, act) == if t + 1 < p.Last() then {p.route[t + 1]} else {}
    ensures Payees(sha, sha(p.preimage), n, act) == if t < p.Last() && act.accepted then {p.route[t + 1]} else {}
  {
    hide Handled, AllGenuine;
    var lock := sha(p.preimage);
    OwnDelivery(sha, p, n, t, false, act.i, act.accepted, n');
    UnderExpected(sha, p, t + 1);
  }

  lemma OtherPayers(sha: Preimage -> Hash, p: Payment, n: Net, t: nat, stalled: bool, act: Act, n': Net)
    requires Stage(sha, p, n, t, stalled) && AllGenuine(sha, n) && Step(sha, sha(p.preimage), n, act, n')
    requires !IsOurs(sha, sha(p.preimage), n, act)
    ensures Payers(sha, sha(p.preimage), n, act) == {} && Payees(sha, sha(p.preimage), n, act) == {}
  {
    hide Stage, Under, Handled, AllGenuine;
    if act.Deliver? {
      OtherDelivery(sha, p, n, t, stalled, act.i, act.accepted, n');
    }
  }

  lemma AccountsMore(p: Payment, visits: seq<Visit>, v: Visit, paid: set<Address>, accepted: set<Address>)
    requires p.Proper() && Accounts(p, visits, paid, accepted)
    ensures var t := |visits|;
            Accounts(p, visits + [v], paid + (if t + 1 < p.Last() then {p.route[t + 1]} else {}),
                     accepted + if t < p.Last() && v.accepted then {p.route[t + 1]} else {})
  {
    var t, more := |visits|, visits + [v];
    assert forall i :: i < t ==> (AtRelay(p, more, i) <==> AtRelay(p, visits, i)) && (IsAccepted(more, i) <==> IsAccepted(visits, i));
    assert AtRelay(p, more, t) <==> t + 1 < p.Last();
    assert IsAccepted(more, t) <==> v.accepted;
  }

  lemma NoAccounts(p: Payment)
    requires p.Proper()
    ensures Accounts(p, [], {}, {})
  {
  }

  lemma {:induction false} RunAccounts(sha: Preimage -> Hash, p: Payment, nets: seq<Net>, acts: seq<Act>, k: nat)
    requires IsRun(sha, p, nets, acts) && k <= |acts|
    ensures var lock := sha(p.preimage);
            Accounts(p, Visits(sha, lock, nets, acts, k), Paid(sha, lock, nets, acts, k), Accepted(sha, lock, nets, acts, k))
    decreases k
  {
    hide Stage, Step, AllGenuine, IsReady, OnTrack, Accounts, Payers, Payees, Stops;
    if k == 0 {
      NoAccounts(p);
    } else {
      var lock := sha(p.preimage);
      var n, act, visits := nets[k - 1], acts[k - 1], Visits(sha, lock, nets, acts, k - 1);
      RunAccounts(sha, p, nets, acts, k - 1);
      RelayFollowsRoute(sha, p, nets, acts, k - 1);
      assert Step(sha, lock, n, act, nets[k - 1 + 1]);
      if IsOurs(sha, lock, n, act) {
        StepKeepsStage(sha, p, n, |visits|, Stalled(p, visits), act, nets[k]);
        OwnPayers(sha, p, n, |visits|, act, nets[k]);
        AccountsMore(p, visits, Visit(n.inflight[act.i], act.accepted), Paid(sha, lock, nets, acts, k - 1), Accepted(sha, lock, nets, acts, k - 1));
      } else {
        OtherPayers(sha, p, n, |visits|, Stalled(p, visits), act, nets[k]);
        assert Visits(sha, lock, nets, acts, k) == visits;
        assert Paid(sha, lock, nets, acts, k) == Paid(sha, lock, nets, acts, k - 1);
        assert Accepted(sha, lock, nets, acts, k) == Accepted(sha, lock, nets, acts, k - 1);
      }
    }
  }

  /** In every run, the relays that have passed on the payment without having accepted it are exactly those that refused it;
      there are none if and only if every relay reached has accepted. */
  lemma PaidWithoutAccepting(sha: Preimage -> Hash, p: Payment, nets: seq<Net>, acts: seq<Act>, k: nat)
    requires IsRun(sha, p, nets, acts) && k <= |acts|
    ensures var lock := sha(p.preimage); var visits := Visits(sha, lock, nets, acts, k);
            var unpaid := Paid(sha, lock, nets, acts, k) - Accepted(sha, lock, nets, acts, k);
            && (forall t :: AtRelay(p, visits, t) ==> (p.route[t + 1] in unpaid <==> !visits[t].accepted))
            && (unpaid == {} <==> forall t :: AtRelay(p, visits, t) ==> visits[t].accepted)
  {
    RunAccounts(sha, p, nets, acts, k);
    var lock := sha(p.preimage);
    RefusedAreUnpaid(p, Visits(sha, lock, nets, acts, k), Paid(sha, lock, nets, acts, k), Accepted(sha, lock, nets, acts, k));
  }

  lemma RefusedAreUnpaid(p: Payment, visits: seq<Visit>, paid: set<Address>, accepted: set<Address>)
    requires p.Proper() && Accounts(p, visits, paid, accepted)
    ensures forall t :: AtRelay(p, visits, t) ==> (p.route[t + 1] in paid - accepted <==> !visits[t].accepted)
    ensures paid - accepted == {} <==> forall t :: AtRelay(p, visits, t) ==> visits[t].accepted
  {
    forall t | AtRelay(p, visits, t) ensures p.route[t + 1] in paid - accepted <==> !visits[t].accepted {
      assert IsAccepted(visits, t) <==> visits[t].accepted;
    }
    if paid - accepted != {} {
      var x :| x in paid - accepted;
      var t :| AtRelay(p, visits, t) && x == p.route[t + 1];
    }
  }

  /** Node 0 pays node 2 through node 1, which refuses the transfer and passes it on: a run under any hash function. */
  lemma RefusedButPaid(sha: Preimage -> Hash, preimage: Preimage) returns (p: Payment, nets: seq<Net>, acts: seq<Act>)
    ensures IsRun(sha, p, nets, acts) && p.preimage == preimage && acts == [Deliver(0, false)]
    ensures 1 in Paid(sha, sha(preimage), nets, acts, 1) && 1 !in Accepted(sha, sha(preimage), nets, acts, 1)
  {
    var lock, none := sha(preimage), Invoices(map[], map[]);
    p := Payment([0, 1, 2], 5, preimage);
    var m, next := Transfer(1, 0, 5, lock, [NextHop(2, 5)]), Transfer(2, 1, 5, lock, []);
    var nodes := map[0 := none, 1 := none, 2 := Invoices(map[lock := preimage], map[])];
    var relay := Invoices(map[], map[lock := 0]);
    nets, acts := [Net(nodes, [m]), Net(nodes[1 := relay], [next])], [Deliver(0, false)];
    assert [m][..0] == [] && HopsTo(p.route[2..], 5) == [NextHop(2, 5)];
    assert [NextHop(2, 5)][1..] == [];
    assert [] + [next] == [next];
    assert Handled(sha, none, 1, m, false) == (relay, [next]);
    assert Without([m], 0) == [];
    assert Under(sha, lock, [next]) == [next];
    assert next in [next] && next.from == 1;
    assert Paid(sha, lock, nets, acts, 0) == {} && Accepted(sha, lock, nets, acts, 0) == {};
  }
}
