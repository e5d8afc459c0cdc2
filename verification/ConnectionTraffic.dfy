/** What passes through the behaviour and its handlers, over every run and whatever the interleaving: packets both ways,
    dials, and bans. */
module ConnectionTraffic {
  import opened Basics
  import opened PeerTable
  import opened PeerBehaviour
  import opened HandlerModel
  import opened Connections
  import opened ConnectionRuns
  import opened ConnectionSafety

  // ----- what is queued

  /** A packet for the outside, a packet for the remote, a dial. */
  datatype Kind = Packets | Texts | Dials

  function Pick(kind: Kind, e: Event, p: PeerId): seq<string> {
    if kind == Packets && e.ExternalMessage? && e.peer == p then [e.message]
    else if kind == Texts && e.SendEvent? && e.peer == p && e.command.SendCustomMessage? then [e.command.message]
    else if kind == Dials && e == DialPeer(p) then [""]
    else []
  }

  /** What the events hold of one kind for `p`, in order. */
  function Picked(kind: Kind, events: seq<Event>, p: PeerId): seq<string> {
    if events == [] then [] else Pick(kind, events[0], p) + Picked(kind, events[1..], p)
  }

  lemma {:induction false} PickedSum(kind: Kind, s: seq<Event>, t: seq<Event>, p: PeerId)
    ensures Picked(kind, s + t, p) == Picked(kind, s, p) + Picked(kind, t, p)
    decreases |s|
  {
    hide Pick;
    if s == [] {
      assert s + t == t;
    } else {
      PickedSum(kind, s[1..], t, p);
      assert (s + t)[0] == s[0] && (s + t)[1..] == s[1..] + t;
      var first, rest := Pick(kind, s[0], p), Picked(kind, s[1..], p);
      assert Picked(kind, s, p) == first + rest && Picked(kind, s + t, p) == first + Picked(kind, s[1..] + t, p);
      hide Picked;
      assert first + (rest + Picked(kind, t, p)) == first + rest + Picked(kind, t, p);
    }
  }

  lemma PickedFew(more: seq<Event>, p: PeerId)
    requires |more| <= 2
    ensures forall kind :: Picked(kind, more, p) ==
              (if |more| > 0 then Pick(kind, more[0], p) else []) + (if |more| > 1 then Pick(kind, more[1], p) else [])
  {
    forall kind
      ensures Picked(kind, more, p) ==
              (if |more| > 0 then Pick(kind, more[0], p) else []) + (if |more| > 1 then Pick(kind, more[1], p) else [])
    {
      if |more| == 2 {
        assert more == [more[0]] + [more[1]];
        PickedSum(kind, [more[0]], [more[1]], p);
      }
    }
  }

  predicate IsRequested(b: Behaviour, p: PeerId) { p in b.peers && b.peers[p].Requested? }

  /** The events grow by these packets and texts of `p`, and by a dial exactly if `p` becomes requested. */
  predicate Adds(b: Behaviour, b': Behaviour, p: PeerId, packets: seq<string>, texts: seq<string>) {
    && b.events <= b'.events
    && var more := b'.events[|b.events|..];
    && Picked(Packets, more, p) == packets && Picked(Texts, more, p) == texts
    && Picked(Dials, more, p) == if !IsRequested(b, p) && IsRequested(b', p) then [""] else []
  }

  lemma FewAdded(b: Behaviour, b': Behaviour, p: PeerId)
    requires b.events <= b'.events && |b'.events| <= |b.events| + 2
    ensures var more := b'.events[|b.events|..];
            forall kind :: Picked(kind, more, p) ==
              (if |more| > 0 then Pick(kind, more[0], p) else []) + (if |more| > 1 then Pick(kind, more[1], p) else [])
  {
    PickedFew(b'.events[|b.events|..], p);
  }

  lemma DisconnectAdds(b: Behaviour, q: PeerId, ban: Option<nat>, now: nat, p: PeerId)
    ensures Adds(b, DisconnectPeer(b, q, ban, now).next, p, [], [])
  {
    hide Picked;
    FewAdded(b, DisconnectPeer(b, q, ban, now).next, p);
  }

  lemma ConnectAdds(b: Behaviour, q: PeerId, now: nat, p: PeerId)
    ensures Adds(b, PsmConnect(b, q, now), p, [], [])
  {
    hide Picked;
    FewAdded(b, PsmConnect(b, q, now), p);
  }

  lemma AnswerAdds(b: Behaviour, index: nat, p: PeerId)
    ensures Adds(b, PsmAccept(b, index).next, p, [], []) && Adds(b, PsmReject(b, index), p, [], [])
  {
    hide Picked;
    hide FindIndex;
    FewAdded(b, PsmAccept(b, index).next, p);
    FewAdded(b, PsmReject(b, index), p);
  }

  lemma SendAdds(b: Behaviour, q: PeerId, message: string, p: PeerId)
    ensures Adds(b, SendPacket(b, q, message), p, [], if q == p && b.IsOpen(p) then [message] else [])
  {
    FewAdded(b, SendPacket(b, q, message), p);
  }

  lemma DialFailureAdds(b: Behaviour, q: PeerId, now: nat, p: PeerId)
    ensures Adds(b, InjectDialFailure(b, q, now).next, p, [], [])
  {
    hide Picked;
    FewAdded(b, InjectDialFailure(b, q, now).next, p);
  }

  lemma DropAdds(b: Behaviour, q: PeerId, p: PeerId)
    ensures Adds(b, PsmDrop(b, q), p, [], [])
  {
    hide Picked;
    FewAdded(b, PsmDrop(b, q), p);
  }

  lemma TimerAdds(b: Behaviour, q: PeerId, p: PeerId)
    ensures Adds(b, TimerFired(b, q), p, [], [])
  {
    hide Picked;
    FewAdded(b, TimerFired(b, q), p);
  }

  lemma TurnAdds(b: Behaviour, act: Act, now: nat, p: PeerId)
    requires IsTurn(act)
    ensures Adds(b, Turned(b, act, now), p, [], if act.AskSend? && act.p == p && b.IsOpen(p) then [act.message] else [])
  {
    hide Adds, PsmConnect, PsmDrop, PsmAccept, PsmReject, DisconnectPeer, SendPacket, InjectDialFailure, TimerFired;
    match act
    case CannotDial(q) => DialFailureAdds(b, q, now, p);
    case WantConnect(q) => ConnectAdds(b, q, now, p);
    case WantDrop(q) => DropAdds(b, q, p);
    case Accepted(index) => AnswerAdds(b, index, p);
    case Rejected(index) => AnswerAdds(b, index, p);
    case AskDisconnect(q) => DisconnectAdds(b, q, None, now, p);
    case AskSend(q, message) => SendAdds(b, q, message, p);
    case TimerEnds(q) => TimerAdds(b, q, p);
  }

  lemma ConnectedAdds(b: Behaviour, q: PeerId, point: Endpoint, p: PeerId)
    ensures Adds(b, InjectConnected(b, q, point).next, p, [], [])
  {
    hide Picked;
    FewAdded(b, InjectConnected(b, q, point).next, p);
  }

  lemma LostAdds(b: Behaviour, q: PeerId, ban: nat, now: nat, p: PeerId)
    ensures Adds(b, InjectDisconnected(b, q, ban, now).next, p, [], [])
  {
    hide Picked;
    FewAdded(b, InjectDisconnected(b, q, ban, now).next, p);
  }

  lemma HearAdds(b: Behaviour, q: PeerId, out: HandlerOut, now: nat, p: PeerId)
    ensures Adds(b, InjectNodeEvent(b, q, out, now).next, p, if q == p && out.CustomMessage? then [out.message] else [], [])
  {
    hide Picked;
    if out.ProtocolError? {
      hide DisconnectPeer, Adds;
      DisconnectAdds(b, q, Some(5 * SECOND), now, p);
      NothingAdded(b, p);
    } else {
      FewAdded(b, InjectNodeEvent(b, q, out, now).next, p);
    }
  }

  lemma NothingAdded(b: Behaviour, p: PeerId)
    ensures Adds(b, b, p, [], [])
  {
    assert b.events[|b.events|..] == [];
  }

  /** The packet of `p` that is heard in this step, and the one the outside asks to send while `p` is open. */
  function HeardPacket(n: Net, act: Act, p: PeerId): seq<string> {
    if act.Hear? && act.p == p && p in n.links && n.links[p].channel != [] && n.links[p].channel[0].CustomMessage?
    then [n.links[p].channel[0].message] else []
  }

  function AskedText(n: Net, act: Act, p: PeerId): seq<string> {
    if act.AskSend? && act.p == p && n.b.IsOpen(p) then [act.message] else []
  }

  /** What one step queues. */
  lemma StepAdds(n: Net, act: Act, now: nat, n': Net, p: PeerId)
    requires AllOk(n) && Next(n, act, now, n')
    ensures Adds(n.b, n'.b, p, HeardPacket(n, act, p), AskedText(n, act, p))
  {
    hide Adds;
    if IsTurn(act) {
      TurnAdds(n.b, act, now, p);
    } else {
      match act
      case PeerConnected(q, point) => ConnectedAdds(n.b, q, point, p);
      case PeerLost(q, ban) => LostAdds(n.b, q, ban, now, p);
      case Hear(q) => HearAdds(n.b, q, n.links[q].channel[0], now, p);
      case _ => NothingAdded(n.b, p);
    }
  }

  // ----- dials

  /** How often `p` has become requested in the first `k` steps. */
  function TimesRequested(nets: seq<Net>, k: nat, p: PeerId): nat
    requires k < |nets|
  {
    if k == 0 then 0
    else TimesRequested(nets, k - 1, p) + if !IsRequested(nets[k - 1].b, p) && IsRequested(nets[k].b, p) then 1 else 0
  }

  /** In every run, each peer is dialled exactly as often as it becomes requested. */
  lemma {:induction false} DialledWhenRequested(nets: seq<Net>, labels: seq<Label>, k: nat, p: PeerId)
    requires IsRun(nets, labels) && k <= |labels|
    ensures |Picked(Dials, nets[k].b.events, p)| == TimesRequested(nets, k, p)
    decreases k
  {
    hide Next, Fine, Adds, Picked, IsRequested;
    if k > 0 {
      DialledWhenRequested(nets, labels, k - 1, p);
      EveryRunIsFine(nets, labels, k - 1);
      assert Takes(nets[k - 1], labels[k - 1], nets[k - 1 + 1]);
      StepAdds(nets[k - 1], labels[k - 1].act, labels[k - 1].now, nets[k], p);
      DialsMore(nets[k - 1].b, nets[k].b, p, HeardPacket(nets[k - 1], labels[k - 1].act, p), AskedText(nets[k - 1], labels[k - 1].act, p));
    } else {
      NothingPicked(p);
    }
  }

  lemma NothingPicked(p: PeerId)
    ensures forall kind :: Picked(kind, [], p) == []
  {
  }

  lemma DialsMore(b: Behaviour, b': Behaviour, p: PeerId, packets: seq<string>, texts: seq<string>)
    requires Adds(b, b', p, packets, texts)
    ensures |Picked(Dials, b'.events, p)| == |Picked(Dials, b.events, p)| + if !IsRequested(b, p) && IsRequested(b', p) then 1 else 0
  {
    hide Picked;
    var more := b'.events[|b.events|..];
    assert b'.events == b.events + more;
    PickedSum(Dials, b.events, more, p);
  }

  // ----- packets from the remote

  /** The packets among the reports of a handler. */
  function PacketsIn(outs: seq<HandlerOut>): seq<string> {
    if outs == [] then [] else (if outs[0].CustomMessage? then [outs[0].message] else []) + PacketsIn(outs[1..])
  }

  lemma {:induction false} PacketsInSum(s: seq<HandlerOut>, t: seq<HandlerOut>)
    ensures PacketsIn(s + t) == PacketsIn(s) + PacketsIn(t)
    decreases |s|
  {
    if s == [] {
      assert s + t == t;
    } else {
      PacketsInSum(s[1..], t);
      assert (s + t)[0] == s[0] && (s + t)[1..] == s[1..] + t;
      var first, rest := if s[0].CustomMessage? then [s[0].message] else [], PacketsIn(s[1..]);
      assert PacketsIn(s) == first + rest && PacketsIn(s + t) == first + PacketsIn(s[1..] + t);
      hide PacketsIn;
      assert first + (rest + PacketsIn(t)) == first + rest + PacketsIn(t);
    }
  }

  /** The packet that the poll of an open handler finds. */
  function Yielded(st: State, a: Answers): seq<string> {
    var k := LastStop(a.polls);
    if st.Normal? && k >= 0 && a.polls[k].Received? then [a.polls[k].message] else []
  }

  /** The packet a substream of `p` yields in this step. */
  function Arriving(n: Net, act: Act, p: PeerId): seq<string> {
    if act.PollHandler? && act.p == p && p in n.links && n.links[p].h.queue == [] then Yielded(n.links[p].h.state, act.a) else []
  }

  /** What a handler step adds to its queue holds no packet. */
  lemma QueueHoldsNoPacket(l: Link, l': Link, added: seq<Output>)
    requires l'.channel == l.channel && l'.h.queue == l.h.queue + added && |added| <= 1
    requires added != [] && added[0].Custom? ==> !added[0].out.CustomMessage?
    ensures PacketsIn(l'.Unheard()) == PacketsIn(l.Unheard())
  {
    ReportsMore(l.h.queue, added);
    assert l'.Unheard() == l.Unheard() + Reports(added);
    PacketsInSum(l.Unheard(), Reports(added));
    assert added != [] ==> added[1..] == [];
  }

  lemma PollPackets(l: Link, a: Answers, h: Handler, r: PollResult)
    requires Fits(l.h.state, a) && HandlerPolled(l.h, a, h, r)
    ensures PacketsIn(AfterPoll(l, h, r).Unheard()) == PacketsIn(l.Unheard()) + if l.h.queue == [] then Yielded(l.h.state, a) else []
  {
    var l' := AfterPoll(l, h, r);
    if l.h.queue != [] {
      assert l'.Unheard() == l.Unheard();
    } else {
      IdlePollPackets(l.h, a, h, r);
      hide HandlerPolled, Yielded, Fits;
      var more := if r.Ready? && r.output.Custom? then [r.output.out] else [];
      assert l'.Unheard() == l.Unheard() + more;
      PacketsInSum(l.Unheard(), more);
    }
  }

  lemma IdlePollPackets(h: Handler, a: Answers, h': Handler, r: PollResult)
    requires h.queue == [] && Fits(h.state, a) && HandlerPolled(h, a, h', r)
    ensures h'.queue == []
    ensures PacketsIn(if r.Ready? && r.output.Custom? then [r.output.out] else []) == Yielded(h.state, a)
  {
    hide NormalPolled, ShutdownPolled, StillClosing, LastStop;
    if r.Ready? && r.output.Custom? {
      assert [r.output.out][1..] == [];
    }
    if h.state.Normal? {
      PassPackets(h.state.substreams, h.state.shutdown, a.polls, h'.state, match r case Ready(o) => [o] case _ => []);
    }
  }

  lemma PassPackets(s: seq<Substream>, shutdown: seq<Substream>, polls: seq<Polled>, st: State, out: seq<Output>)
    requires |s| == |polls| && NormalPolled(s, shutdown, polls, st, out)
    ensures |out| <= 1 && forall i :: 0 <= i < |out| ==> out[i].Custom?
    ensures var k := LastStop(polls);
            if k >= 0 && polls[k].Received? then out == [Custom(CustomMessage(polls[k].message))]
            else out == [] || !out[0].out.CustomMessage?
  {
  }

  /** While the connection with `p` lasts: a packet that arrives goes to the end of those under way, and the one that is
      heard comes from their front. */
  lemma StepPackets(n: Net, act: Act, now: nat, n': Net, p: PeerId)
    requires AllOk(n) && Next(n, act, now, n') && p in n.links && p in n'.links
    ensures HeardPacket(n, act, p) + PacketsIn(n'.links[p].Unheard()) == PacketsIn(n.links[p].Unheard()) + Arriving(n, act, p)
  {
    hide HandlerPolled, Yielded, InjectNodeEvent, InjectConnected, InjectDisconnected, Turned;
    var l, l' := n.links[p], n'.links[p];
    if act.PollHandler? && act.p == p {
      var h, r :| HandlerPolled(l.h, act.a, h, r) && n' == WithLink(n, p, AfterPoll(l, h, r));
      PollPackets(l, act.a, h, r);
    } else if act.Hear? && act.p == p {
      assert l.Unheard() == [l.channel[0]] + l'.Unheard();
    } else {
      hide PacketsIn;
      var added := StepQueues(n, act, now, n', p);
      QueueHoldsNoPacket(l, l', added);
    }
  }

  /** Outside of polls a handler at most queues something, and never a packet. */
  lemma StepQueues(n: Net, act: Act, now: nat, n': Net, p: PeerId) returns (added: seq<Output>)
    requires AllOk(n) && Next(n, act, now, n') && p in n.links && p in n'.links
    requires !(act.PollHandler? && act.p == p) && !(act.Hear? && act.p == p)
    ensures n'.links[p].channel == n.links[p].channel && n'.links[p].h.queue == n.links[p].h.queue + added && |added| <= 1
    ensures added != [] && added[0].Custom? ==> !added[0].out.CustomMessage?
  {
    hide HandlerPolled, InjectNodeEvent, InjectConnected, InjectDisconnected, Turned;
    added := n'.links[p].h.queue[|n.links[p].h.queue|..];
  }

  /** The packets that arrive from `p` in steps `i` to `k`. */
  function ArrivingBetween(nets: seq<Net>, labels: seq<Label>, i: nat, k: nat, p: PeerId): seq<string>
    requires i <= k <= |labels| && |nets| == |labels| + 1
    decreases k
  {
    if k == i then [] else ArrivingBetween(nets, labels, i, k - 1, p) + Arriving(nets[k - 1], labels[k - 1].act, p)
  }

  ghost predicate LinkedThroughout(nets: seq<Net>, i: nat, k: nat, p: PeerId)
    requires k < |nets|
  {
    forall j :: i <= j <= k ==> p in nets[j].links
  }

  /** The packets of `p` that the outside was told, and those under way. */
  function PacketsOf(n: Net, p: PeerId): seq<string>
    requires p in n.links
  {
    Picked(Packets, n.b.events, p) + PacketsIn(n.links[p].Unheard())
  }

  lemma ToldMorePackets(b: Behaviour, b': Behaviour, p: PeerId, packets: seq<string>, texts: seq<string>)
    requires Adds(b, b', p, packets, texts)
    ensures Picked(Packets, b'.events, p) == Picked(Packets, b.events, p) + packets
  {
    hide Picked;
    var more := b'.events[|b.events|..];
    assert b'.events == b.events + more;
    PickedSum(Packets, b.events, more, p);
  }

  lemma PacketsMore(n: Net, act: Act, now: nat, n': Net, p: PeerId)
    requires AllOk(n) && Next(n, act, now, n') && p in n.links && p in n'.links
    ensures PacketsOf(n', p) == PacketsOf(n, p) + Arriving(n, act, p)
  {
    hide Next, PacketsIn, Link.Unheard, Arriving, HeardPacket, AskedText, Adds, Picked;
    StepAdds(n, act, now, n', p);
    StepPackets(n, act, now, n', p);
    ToldMorePackets(n.b, n'.b, p, HeardPacket(n, act, p), AskedText(n, act, p));
    Regroup(Picked(Packets, n.b.events, p), HeardPacket(n, act, p), PacketsIn(n'.links[p].Unheard()),
            PacketsIn(n.links[p].Unheard()), Arriving(n, act, p));
  }

  /** As long as a connection lasts, no packet from the remote is lost, altered, invented or overtaken: what the outside
      has been told of it, and what is still under way, is what has arrived. */
  lemma {:induction false} PacketsPassThrough(nets: seq<Net>, labels: seq<Label>, i: nat, k: nat, p: PeerId)
    requires IsRun(nets, labels) && i <= k <= |labels| && LinkedThroughout(nets, i, k, p)
    ensures PacketsOf(nets[k], p) == PacketsOf(nets[i], p) + ArrivingBetween(nets, labels, i, k, p)
    decreases k
  {
    hide Next, PacketsOf, Arriving, Fine;
    if k > i {
      PacketsPassThrough(nets, labels, i, k - 1, p);
      EveryRunIsFine(nets, labels, k - 1);
      assert Takes(nets[k - 1], labels[k - 1], nets[k - 1 + 1]);
      PacketsMore(nets[k - 1], labels[k - 1].act, labels[k - 1].now, nets[k], p);
    }
  }

  lemma Regroup(a: seq<string>, b: seq<string>, c: seq<string>, d: seq<string>, e: seq<string>)
    requires b + c == d + e
    ensures (a + b) + c == (a + d) + e
  {
    assert (a + b) + c == a + (b + c);
    assert (a + d) + e == a + (d + e);
  }

  // ----- packets for the remote

  function TextsIn(inbox: seq<Command>): seq<string> {
    if inbox == [] then [] else (if inbox[0].SendCustomMessage? then [inbox[0].message] else []) + TextsIn(inbox[1..])
  }

  lemma {:induction false} TextsInSum(s: seq<Command>, t: seq<Command>)
    ensures TextsIn(s + t) == TextsIn(s) + TextsIn(t)
    decreases |s|
  {
    if s == [] {
      assert s + t == t;
    } else {
      TextsInSum(s[1..], t);
      assert (s + t)[0] == s[0] && (s + t)[1..] == s[1..] + t;
      var first, rest := if s[0].SendCustomMessage? then [s[0].message] else [], TextsIn(s[1..]);
      assert TextsIn(s) == first + rest && TextsIn(s + t) == first + TextsIn(s[1..] + t);
      hide TextsIn;
      assert first + (rest + TextsIn(t)) == first + rest + TextsIn(t);
    }
  }

  /** The texts for `p` that its handler has still to take. */
  function Outstanding(n: Net, p: PeerId): seq<string>
    requires p in n.links && n.delivered <= |n.b.events|
  {
    TextsIn(n.links[p].inbox) + Picked(Texts, n.b.events[n.delivered..], p)
  }

  function TakenText(n: Net, act: Act, p: PeerId): seq<string> {
    if act.Obey? && act.p == p && p in n.links && n.links[p].inbox != [] && n.links[p].inbox[0].SendCustomMessage?
    then [n.links[p].inbox[0].message] else []
  }

  lemma DeliverTexts(n: Net, n': Net, p: PeerId)
    requires n.delivered < |n.b.events| && p in n.links
    requires n' == n.(delivered := n.delivered + 1, links := Handed(n.links, n.b.events[n.delivered]))
    ensures Outstanding(n', p) == Outstanding(n, p)
  {
    var e, rest := n.b.events[n.delivered], n.b.events[n.delivered + 1..];
    assert n.b.events[n.delivered..] == [e] + rest;
    PickedSum(Texts, [e], rest, p);
    PickedFew([e], p);
    if e.SendEvent? && e.peer == p {
      TextsInSum(n.links[p].inbox, [e.command]);
      assert [e.command][1..] == [];
    }
  }

  /** While the connection lasts: a text asked for goes to the end of the outstanding ones, and the handler takes them from
      the front. */
  lemma StepTexts(n: Net, act: Act, now: nat, n': Net, p: PeerId)
    requires AllOk(n) && Next(n, act, now, n') && p in n.links && p in n'.links && n.delivered <= |n.b.events|
    ensures n'.delivered <= |n'.b.events|
    ensures TakenText(n, act, p) + Outstanding(n', p) == Outstanding(n, p) + AskedText(n, act, p)
  {
    hide Picked, TextsIn, HandlerPolled;
    if act.Deliver? {
      DeliverTexts(n, n', p);
    } else {
      StepAdds(n, act, now, n', p);
      SameOrTaken(n, act, now, n', p);
      assert n'.delivered == n.delivered;
      hide Next, Adds;
      MoreTexts(n, n', AskedText(n, act, p), HeardPacket(n, act, p), p);
      hide TakenText, AskedText, HeardPacket;
      var taken, inbox', queued := TakenText(n, act, p), TextsIn(n'.links[p].inbox), Picked(Texts, n.b.events[n.delivered..], p);
      assert taken + (inbox' + (queued + AskedText(n, act, p))) == (taken + inbox') + queued + AskedText(n, act, p);
    }
  }

  lemma SameOrTaken(n: Net, act: Act, now: nat, n': Net, p: PeerId)
    requires AllOk(n) && Next(n, act, now, n') && p in n.links && p in n'.links && !act.Deliver?
    ensures TakenText(n, act, p) + TextsIn(n'.links[p].inbox) == TextsIn(n.links[p].inbox)
  {
    hide HandlerPolled;
  }

  lemma MoreTexts(n: Net, n': Net, texts: seq<string>, packets: seq<string>, p: PeerId)
    requires n'.delivered == n.delivered <= |n.b.events| && Adds(n.b, n'.b, p, packets, texts)
    ensures n'.delivered <= |n'.b.events|
    ensures Picked(Texts, n'.b.events[n.delivered..], p) == Picked(Texts, n.b.events[n.delivered..], p) + texts
  {
    hide Picked;
    var more := n'.b.events[|n.b.events|..];
    assert n'.b.events[n.delivered..] == n.b.events[n.delivered..] + more;
    PickedSum(Texts, n.b.events[n.delivered..], more, p);
  }

  function AskedBetween(nets: seq<Net>, labels: seq<Label>, i: nat, k: nat, p: PeerId): seq<string>
    requires i <= k <= |labels| && |nets| == |labels| + 1
    decreases k
  {
    if k == i then [] else AskedBetween(nets, labels, i, k - 1, p) + AskedText(nets[k - 1], labels[k - 1].act, p)
  }

  function TakenBetween(nets: seq<Net>, labels: seq<Label>, i: nat, k: nat, p: PeerId): seq<string>
    requires i <= k <= |labels| && |nets| == |labels| + 1
    decreases k
  {
    if k == i then [] else TakenBetween(nets, labels, i, k - 1, p) + TakenText(nets[k - 1], labels[k - 1].act, p)
  }

  lemma {:induction false} DeliveredOnly(nets: seq<Net>, labels: seq<Label>, k: nat)
    requires IsRun(nets, labels) && k <= |labels|
    ensures nets[k].delivered <= |nets[k].b.events|
  {
    EveryRunIsFine(nets, labels, k);
  }

  /** As long as a connection lasts, its handler is given exactly the texts asked for while the peer was open, in order,
      except for those still under way. */
  lemma {:induction false} TextsPassThrough(nets: seq<Net>, labels: seq<Label>, i: nat, k: nat, p: PeerId)
    requires IsRun(nets, labels) && i <= k <= |labels| && LinkedThroughout(nets, i, k, p)
    ensures nets[i].delivered <= |nets[i].b.events| && nets[k].delivered <= |nets[k].b.events|
    ensures TakenBetween(nets, labels, i, k, p) + Outstanding(nets[k], p)
         == Outstanding(nets[i], p) + AskedBetween(nets, labels, i, k, p)
    decreases k
  {
    hide Next, Outstanding, TakenText, AskedText, Fine;
    DeliveredOnly(nets, labels, i);
    DeliveredOnly(nets, labels, k);
    if k > i {
      TextsPassThrough(nets, labels, i, k - 1, p);
      EveryRunIsFine(nets, labels, k - 1);
      assert Takes(nets[k - 1], labels[k - 1], nets[k - 1 + 1]);
      StepTexts(nets[k - 1], labels[k - 1].act, labels[k - 1].now, nets[k], p);
      Regroup(TakenBetween(nets, labels, i, k - 1, p), TakenText(nets[k - 1], labels[k - 1].act, p), Outstanding(nets[k], p),
              Outstanding(nets[k - 1], p), AskedText(nets[k - 1], labels[k - 1].act, p));
      Regrouped(TakenBetween(nets, labels, i, k - 1, p), Outstanding(nets[k - 1], p), Outstanding(nets[i], p),
                AskedBetween(nets, labels, i, k - 1, p), AskedText(nets[k - 1], labels[k - 1].act, p));
    } else {
      assert [] + Outstanding(nets[k], p) == Outstanding(nets[i], p) + [];
    }
  }

  lemma Regrouped(a: seq<string>, b: seq<string>, c: seq<string>, d: seq<string>, e: seq<string>)
    requires a + b == c + d
    ensures (a + b) + e == c + (d + e)
  {
  }

  // ----- bans

  /** `p` may not be dialled or enabled before this time, if one is recorded. */
  function NotBefore(b: Behaviour, p: PeerId): nat { if DeadlineOf(b, p).Some? then DeadlineOf(b, p).value else 0 }

  /** The time up to which a step bans `p`: five seconds from now for a severe error, unless the peer is disabled already;
      the drawn delay for a connection lost while enabled; five seconds for a failed dial. */
  function BanImposed(n: Net, act: Act, now: nat, p: PeerId): Option<nat> {
    if p !in n.b.peers then None
    else
      match act
      case Hear(q) =>
        if q == p && p in n.links && n.links[p].channel != [] && n.links[p].channel[0] == ProtocolError(true) && !n.b.peers[p].Disabled?
        then Some(now + 5 * SECOND) else None
      case PeerLost(q, ban) => if q == p && n.b.peers[p].Enabled? then Some(now + ban) else None
      case CannotDial(q) =>
        if q == p && (n.b.peers[p].Requested? || n.b.peers[p].PendingRequest?) then Some(now + 5 * SECOND) else None
      case _ => None
  }

  /** The deadline of `p` stays or goes. */
  predicate NoBan(b: Behaviour, b': Behaviour, p: PeerId) { DeadlineOf(b', p).None? || DeadlineOf(b', p) == DeadlineOf(b, p) }

  lemma TurnBans(b: Behaviour, act: Act, now: nat, p: PeerId)
    requires IsTurn(act) && !(act.CannotDial? && act.p == p)
    ensures NoBan(b, Turned(b, act, now), p)
  {
    hide FindIndex, FindEntry;
  }

  lemma LostBans(b: Behaviour, q: PeerId, ban: nat, now: nat, p: PeerId)
    requires b.IsLinked(q)
    ensures var b' := InjectDisconnected(b, q, ban, now).next;
            DeadlineOf(b', p) == if p == q && b.peers[p].Enabled? then Some(now + ban) else DeadlineOf(b, p)
  {
  }

  lemma ErrorBans(b: Behaviour, q: PeerId, now: nat, p: PeerId)
    requires b.IsLinked(q) && (b.peers[q].Incoming? ==> FindEntry(b.incoming, q, true).Some?)
    ensures var b' := DisconnectPeer(b, q, Some(5 * SECOND), now).next;
            DeadlineOf(b', p) == if p == q && !b.peers[p].Disabled? then Some(Max(NotBefore(b, p), now + 5 * SECOND)) else DeadlineOf(b, p)
  {
    hide FindEntry;
  }

  lemma HearBans(b: Behaviour, q: PeerId, out: HandlerOut, now: nat, p: PeerId)
    requires b.IsLinked(q) && (b.peers[q].Incoming? ==> FindEntry(b.incoming, q, true).Some?)
    requires out.CustomProtocolClosed? ==> !b.peers[q].Incoming?
    ensures var b' := InjectNodeEvent(b, q, out, now).next;
            DeadlineOf(b', p) == if p == q && out == ProtocolError(true) && !b.peers[p].Disabled?
                                 then Some(Max(NotBefore(b, p), now + 5 * SECOND)) else DeadlineOf(b, p)
  {
    hide DisconnectPeer, FindEntry;
    if out.ProtocolError? {
      ErrorBans(b, q, now, p);
    }
  }

  /** Which steps ban a peer, and for how long. */
  lemma StepBans(n: Net, act: Act, now: nat, n': Net, p: PeerId)
    requires Fine(n) && AllOk(n) && Allowed(n, act, now) && Next(n, act, now, n')
    ensures match BanImposed(n, act, now, p)
            case None => NoBan(n.b, n'.b, p)
            case Some(d) => DeadlineOf(n'.b, p) == Some(if act.CannotDial? then d else Max(NotBefore(n.b, p), d))
  {
    hide HandlerPolled, Turned, InjectDisconnected, InjectNodeEvent, InjectConnected, Fine;
    match act
    case PeerConnected(q, point) => ConnectedBans(n.b, q, point, p);
    case PeerLost(q, ban) =>
      LostIsLinked(n, q);
      LostBans(n.b, q, ban, now, p);
    case Hear(q) =>
      HearIsFit(n, q);
      HearBans(n.b, q, n.links[q].channel[0], now, p);
    case CannotDial(q) => CannotDialBans(n.b, q, now, p);
    case _ =>
      if IsTurn(act) {
        TurnBans(n.b, act, now, p);
      }
  }

  lemma LostIsLinked(n: Net, q: PeerId)
    requires Fine(n) && q in n.links
    ensures n.b.IsLinked(q)
  {
    assert PeerFine(n, q);
  }

  lemma ConnectedBans(b: Behaviour, q: PeerId, point: Endpoint, p: PeerId)
    ensures NoBan(b, InjectConnected(b, q, point).next, p)
  {
  }

  lemma CannotDialBans(b: Behaviour, q: PeerId, now: nat, p: PeerId)
    ensures var b' := Turned(b, CannotDial(q), now);
            if q == p && p in b.peers && (b.peers[p].Requested? || b.peers[p].PendingRequest?)
            then DeadlineOf(b', p) == Some(now + 5 * SECOND) else NoBan(b, b', p)
  {
  }

  /** What is heard fits the state of the peer. */
  lemma HearIsFit(n: Net, q: PeerId)
    requires Fine(n) && q in n.links && n.links[q].channel != []
    ensures n.b.IsLinked(q) && (n.b.peers[q].Incoming? ==> FindEntry(n.b.incoming, q, true).Some?)
    ensures n.links[q].channel[0].CustomProtocolClosed? ==> !n.b.peers[q].Incoming?
  {
    assert PeerFine(n, q);
    assert n.links[q].Unheard()[0] == n.links[q].channel[0];
    if n.b.peers[q].Incoming? {
      AliveIsFound(n.b, q);
    }
  }

  /** Once a step has banned `p`, and until the ban is over, `p` is neither dialled nor enabled, and stays banned; unless
      it connects or a dial fails. */
  lemma BanHolds(nets: seq<Net>, labels: seq<Label>, i: nat, j: nat, p: PeerId)
    requires IsRun(nets, labels) && i < j <= |labels|
    requires BanImposed(nets[i], labels[i].act, labels[i].now, p).Some?
    requires ChurnBefore(labels, i + 1, j, p, BanImposed(nets[i], labels[i].act, labels[i].now, p).value)
    ensures var d := BanImposed(nets[i], labels[i].act, labels[i].now, p).value;
            Respects(nets[i + 1].b, nets[j].b, p, d)
  {
    hide Next, Fine;
    var d := BanImposed(nets[i], labels[i].act, labels[i].now, p).value;
    EveryRunIsFine(nets, labels, i);
    assert Takes(nets[i], labels[i], nets[i + 1]);
    StepBans(nets[i], labels[i].act, labels[i].now, nets[i + 1], p);
    var d' := DeadlineOf(nets[i + 1].b, p).value;
    assert d <= d';
    BanSurvives(nets, labels, i + 1, j, p, d');
  }

  /** Whom the manager chooses is dialled or enabled at once, or waits exactly as long as it is banned. */
  lemma ConnectAtOnce(b: Behaviour, p: PeerId, now: nat)
    requires !b.IsWanted(p) && (p in b.peers ==> !b.peers[p].Poisoned?)
    ensures var b' := PsmConnect(b, p, now);
            && b'.IsWanted(p) && b'.IsLinked(p) == b.IsLinked(p)
            && (NotBefore(b, p) > now ==> DeadlineOf(b', p) == DeadlineOf(b, p) && b'.events == b.events)
            && (NotBefore(b, p) <= now ==> DeadlineOf(b', p).None?)
            && (NotBefore(b, p) <= now ==> b'.events == b.events + [if b.IsLinked(p) then SendEvent(p, Enable) else DialPeer(p)])
  {
  }

  /** What a new connection with a peer becomes: enabled if it was wanted; disabled if we made it unasked, a ban being kept;
      and a question to the manager if the remote made it. */
  lemma ConnectedOutcome(b: Behaviour, p: PeerId, point: Endpoint)
    requires !b.IsLinked(p) && (p in b.peers ==> !b.peers[p].Poisoned?) && (b.IsUnasked(p, point) ==> b.nextIndex < U64_MAX)
    ensures var o := InjectConnected(b, p, point);
            if b.IsWanted(p) then
              o.next.At(p) == Some(Enabled(point, false)) && o.calls == []
            else if point.Dialer? then
              o.next.At(p) == Some(Disabled(point, false, DeadlineOf(b, p))) && o.calls == []
            else
              && o.next.At(p) == Some(Incoming(point)) && o.calls == [CallIncoming(p, b.nextIndex)]
              && o.next.incoming == b.incoming + [IncomingPeer(p, true, b.nextIndex)] && o.next.nextIndex == b.nextIndex + 1
  {
  }

  /** An acceptance is honoured by enabling the peer, or given back if its connection is gone. */
  lemma AcceptHonoured(b: Behaviour, index: nat, k: nat)
    requires EntriesFine(b) && k < |b.incoming| && b.incoming[k].index == index
    requires b.incoming[k].alive ==> b.At(b.incoming[k].peer) == Some(Incoming(Listener))
    ensures var o, p := PsmAccept(b, index), b.incoming[k].peer;
            && |o.next.incoming| == |b.incoming| - 1 && IsGoneEntry(o.next.incoming, index)
            && if b.incoming[k].alive then o.next.At(p) == Some(Enabled(Listener, false)) && o.calls == []
               else o.next.At(p) == b.At(p) && o.calls == [CallDropped(p)]
  {
    assert FindIndex(b.incoming, index) == Some(k);
  }

  predicate IsGoneEntry(incoming: seq<IncomingPeer>, index: nat) {
    forall i :: 0 <= i < |incoming| ==> incoming[i].index != index
  }

  // ----- endpoints

  /** The behaviour knows which side made the connection. */
  predicate PointFits(n: Net, p: PeerId) {
    p in n.links && n.b.IsLinked(p) ==> n.b.peers[p].point == n.links[p].h.endpoint
  }

  lemma TurnKeepsPoint(b: Behaviour, act: Act, now: nat, p: PeerId)
    requires IsTurn(act) && b.IsLinked(p)
    ensures var b' := Turned(b, act, now); b'.IsLinked(p) ==> b'.peers[p].point == b.peers[p].point
  {
    hide FindIndex, FindEntry;
  }

  lemma HearKeepsPoint(b: Behaviour, q: PeerId, out: HandlerOut, now: nat, p: PeerId)
    requires b.IsLinked(p)
    ensures var b' := InjectNodeEvent(b, q, out, now).next; b'.IsLinked(p) ==> b'.peers[p].point == b.peers[p].point
  {
    hide FindEntry;
  }

  lemma HandlerKeepsEndpoint(n: Net, act: Act, now: nat, n': Net, p: PeerId)
    requires AllOk(n) && Next(n, act, now, n') && p in n.links && p in n'.links
    ensures n'.links[p].h.endpoint == n.links[p].h.endpoint
  {
    hide StatePolled;
  }

  lemma StepKeepsPoint(n: Net, act: Act, now: nat, n': Net, p: PeerId)
    requires Fine(n) && AllOk(n) && Allowed(n, act, now) && Next(n, act, now, n') && PointFits(n, p)
    ensures PointFits(n', p)
  {
    assert PeerFine(n, p);
    hide Fine, PeerFine, HandlerPolled, NoEnableUnderWay;
    if act.PeerConnected? && act.p == p {
      ConnectedOutcome(n.b, p, act.point);
    } else if p in n.links && p in n'.links {
      HandlerKeepsEndpoint(n, act, now, n', p);
      BehaviourKeepsPoint(n, act, now, n', p);
    }
  }

  lemma BehaviourKeepsPoint(n: Net, act: Act, now: nat, n': Net, p: PeerId)
    requires AllOk(n) && Next(n, act, now, n') && n.b.IsLinked(p) && p in n.links && p in n'.links
    ensures n'.b.IsLinked(p) ==> n'.b.peers[p].point == n.b.peers[p].point
  {
    hide HandlerPolled, Turned, InjectNodeEvent;
    if IsTurn(act) {
      TurnKeepsPoint(n.b, act, now, p);
    } else if act.Hear? {
      HearKeepsPoint(n.b, act.p, n.links[act.p].channel[0], now, p);
    }
  }

  /** In every run, the behaviour takes each connection to be made by the side that made it. */
  lemma {:induction false} PointsAreEndpoints(nets: seq<Net>, labels: seq<Label>, k: nat, p: PeerId)
    requires IsRun(nets, labels) && k <= |labels|
    ensures PointFits(nets[k], p)
    decreases k
  {
    if k > 0 {
      hide Next, Fine, PointFits;
      PointsAreEndpoints(nets, labels, k - 1, p);
      EveryRunIsFine(nets, labels, k - 1);
      assert Takes(nets[k - 1], labels[k - 1], nets[k - 1 + 1]);
      StepKeepsPoint(nets[k - 1], labels[k - 1].act, labels[k - 1].now, nets[k], p);
    }
  }
}
