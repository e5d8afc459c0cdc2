/** Every step of the behaviour and its handlers keeps their agreement, whatever the interleaving. */
module ConnectionRuns {
  import opened Basics
  import opened PeerTable
  import opened PeerBehaviour
  import opened HandlerModel
  import opened HandlerRuns
  import opened Connections

  // ----- connections come and go

  lemma FreshEntries(b: Behaviour, b': Behaviour, p: PeerId)
    requires EntriesFine(b) && b'.incoming == b.incoming + [IncomingPeer(p, true, b.nextIndex)] && b'.nextIndex == b.nextIndex + 1
    requires forall q :: q in b'.peers && b'.peers[q].Incoming? ==> q == p || (q in b.peers && b.peers[q].Incoming?)
    ensures EntriesFine(b')
  {
    forall q | q in b'.peers && b'.peers[q].Incoming? ensures HasAlive(b'.incoming, q) {
      if q == p {
        assert IsEntry(b'.incoming[|b.incoming|], p, true);
      } else {
        var i :| 0 <= i < |b.incoming| && IsEntry(b.incoming[i], q, true);
        assert IsEntry(b'.incoming[i], q, true);
      }
    }
  }

  lemma ConnectedEntries(n: Net, p: PeerId, point: Endpoint)
    requires Fine(n) && Allowed(n, PeerConnected(p, point), 0)
    ensures EntriesFine(InjectConnected(n.b, p, point).next)
  {
    hide HasAlive;
    assert PeerFine(n, p);
    var b' := InjectConnected(n.b, p, point).next;
    if p in b'.peers && b'.peers[p].Incoming? {
      FreshEntries(n.b, b', p);
    } else {
      EntriesKept(n.b, b');
    }
  }

  /** What a new connection does to the behaviour: the state it leads to, and the command it sends. */
  lemma ConnectedMoves(b: Behaviour, p: PeerId, point: Endpoint) returns (more: seq<Event>)
    requires !b.IsLinked(p) && (p in b.peers ==> !b.peers[p].Poisoned?)
    requires b.IsUnasked(p, point) ==> b.nextIndex < U64_MAX
    ensures var b' := InjectConnected(b, p, point).next;
            && b'.events == b.events + more && b'.IsLinked(p) && !b'.IsOpen(p)
            && (b'.peers[p].Incoming? <==> point.Listener? && !b.IsWanted(p))
            && match Expected(b'.peers[p]) { case None => more == [] case Some(c) => more == [SendEvent(p, c)] }
  {
    more := InjectConnected(b, p, point).next.events[|b.events|..];
  }

  lemma ConnectedPeerFine(n: Net, p: PeerId, point: Endpoint, n': Net)
    requires Fine(n) && Allowed(n, PeerConnected(p, point), 0)
    requires n' == n.(b := InjectConnected(n.b, p, point).next, links := n.links[p := Link([], NewHandler(point), [], |n.b.events|)])
    ensures PeerFine(n', p)
  {
    hide Told, Switched, HandlerFits, InjectConnected, NoEnableUnderWay;
    assert PeerFine(n, p);
    FreshFits(point, |n.b.events|);
    var more := ConnectedMoves(n.b, p, point);
    ToldMore(n.b.events, more, p);
    SwitchedMore(n.b.events, more, |n.b.events|, p);
    NothingSwitched(n.b.events, p);
    SwitchOfOne(SendEvent(p, Enable), p);
    SwitchOfOne(SendEvent(p, Disable), p);
    if more == [] {
      EnablesMore(n, n', p, more);
    }
  }

  lemma FreshFits(point: Endpoint, start: nat)
    ensures var l := Link([], NewHandler(point), [], start); HandlerFits(false, l) && l.Unheard() == []
  {
    assert Link([], NewHandler(point), [], start).Unheard() == [];
  }

  lemma NothingSwitched(events: seq<Event>, p: PeerId)
    ensures Switched(events, |events|, p) == None
  {
  }

  lemma ConnectedKeepsFine(n: Net, p: PeerId, point: Endpoint, n': Net)
    requires Fine(n) && Allowed(n, PeerConnected(p, point), 0)
    requires n' == n.(b := InjectConnected(n.b, p, point).next, links := n.links[p := Link([], NewHandler(point), [], |n.b.events|)])
    ensures Fine(n')
  {
    hide PeerFine;
    hide EntriesFine;
    ConnectedEntries(n, p, point);
    ConnectedPeerFine(n, p, point, n');
    var more := n'.b.events[|n.b.events|..];
    assert Moves(n.b, n'.b, p, more);
    forall q ensures PeerFine(n', q) {
      assert PeerFine(n, q);
      if q != p {
        OtherFine(n, n', p, more, q);
      }
    }
  }

  lemma LostEntries(b: Behaviour, p: PeerId, ban: nat, now: nat)
    requires EntriesFine(b)
    ensures EntriesFine(InjectDisconnected(b, p, ban, now).next)
  {
    hide HasAlive;
    var b' := InjectDisconnected(b, p, ban, now).next;
    if p in b.peers && b.peers[p].Incoming? {
      EntriesAfterKill(b, b', p, FindEntry(b.incoming, p, false));
    } else {
      EntriesKept(b, b');
    }
  }

  lemma LostPeerFine(n: Net, p: PeerId, ban: nat, now: nat, n': Net)
    requires PeerFine(n, p) && p in n.links
    requires n' == n.(b := InjectDisconnected(n.b, p, ban, now).next, links := n.links - {p})
    ensures PeerFine(n', p)
    ensures n'.b.events == n.b.events + ClosedIf(p, n.b.IsOpen(p))
  {
    hide Told;
    hide Switched;
    hide HandlerFits;
    if n.b.IsOpen(p) {
      ToldOne(n.b.events, ExternalClosed(p), p);
    } else {
      assert n'.b.events == n.b.events;
    }
  }

  lemma LostKeepsFine(n: Net, p: PeerId, ban: nat, now: nat, n': Net)
    requires Fine(n) && p in n.links
    requires n' == n.(b := InjectDisconnected(n.b, p, ban, now).next, links := n.links - {p})
    ensures Fine(n')
  {
    hide PeerFine;
    hide EntriesFine;
    LostEntries(n.b, p, ban, now);
    LostPeerFine(n, p, ban, now, n');
    var more := ClosedIf(p, n.b.IsOpen(p));
    assert Moves(n.b, n'.b, p, more);
    forall q ensures PeerFine(n', q) {
      assert PeerFine(n, q);
      if q != p {
        OtherFine(n, n', p, more, q);
      }
    }
  }

  // ----- handlers

  lemma {:induction false} ReportsMore(queue: seq<Output>, more: seq<Output>)
    ensures Reports(queue + more) == Reports(queue) + Reports(more)
    decreases |queue|
  {
    if queue == [] {
      assert queue + more == more;
    } else {
      ReportsMore(queue[1..], more);
      assert (queue + more)[0] == queue[0] && (queue + more)[1..] == queue[1..] + more;
      var first := if queue[0].Custom? then [queue[0].out] else [];
      assert Reports(queue) == first + Reports(queue[1..]) && Reports(queue + more) == first + Reports(queue[1..] + more);
      hide Reports;
      assert first + (Reports(queue[1..]) + Reports(more)) == first + Reports(queue[1..]) + Reports(more);
    }
  }

  lemma {:induction false} FollowMore(open: bool, outs: seq<HandlerOut>, more: seq<HandlerOut>)
    ensures Follow(open, outs + more) == match Follow(open, outs) case None => None case Some(o) => Follow(o, more)
    decreases |outs|
  {
    if outs == [] {
      assert outs + more == more;
    } else {
      assert (outs + more)[1..] == outs[1..] + more;
      if Heard(open, outs[0]).Some? {
        FollowMore(Heard(open, outs[0]).value, outs[1..], more);
      }
    }
  }

  /** The handler has one more thing to report. */
  lemma OneMoreReport(open: bool, l: Link, l': Link, o: Output)
    requires l'.channel == l.channel && l'.h.queue == l.h.queue + [o]
    ensures l'.Unheard() == l.Unheard() + Reports([o])
    ensures Follow(open, l'.Unheard()) == match Follow(open, l.Unheard())
                                          case None => None
                                          case Some(x) => if o.Custom? then Heard(x, o.out) else Some(x)
  {
    ReportsMore(l.h.queue, [o]);
    assert l'.Unheard() == l.Unheard() + Reports([o]);
    FollowMore(open, l.Unheard(), Reports([o]));
  }

  lemma LinkFine(n: Net, p: PeerId, l': Link)
    requires Fine(n) && p in n.links && l'.start == n.links[p].start
    requires HandlerFits(n.b.IsOpen(p), l')
    requires p in n.b.peers && n.b.peers[p].Incoming? ==> Undecided(WithLink(n, p, l'), p)
    ensures Fine(WithLink(n, p, l'))
  {
    var n' := WithLink(n, p, l');
    assert n.b.events + [] == n.b.events;
    forall q ensures PeerFine(n', q) {
      assert PeerFine(n, q);
      if q != p {
        OtherFine(n, n', p, [], q);
      }
    }
  }

  /** What the handler keeps while it takes in something. */
  ghost predicate Keeps(l: Link, l': Link) {
    && l'.start == l.start
    && (forall open :: HandlerFits(open, l) ==> HandlerFits(open, l'))
  }

  predicate Untouched(l: Link) {
    && (l.h.state.Init? || (l.h.state.Closing? && !l.h.state.reenable))
    && forall i :: 0 <= i < |l.Unheard()| ==> l.Unheard()[i].ProtocolError?
  }

  lemma ObeyKeeps(l: Link, l': Link)
    requires Ok(l.h) && l.inbox != [] && l' == l.(inbox := l.inbox[1..], h := Obeyed(l.h, l.inbox[0]))
    ensures Keeps(l, l')
    ensures Untouched(l) && l.inbox[0] != Enable ==> Untouched(l')
  {
    forall open | HandlerFits(open, l) ensures HandlerFits(open, l') {
      if l.inbox[0].Enable? && l.h.state.Init? && l'.h.queue != l.h.queue {
        OneMoreReport(open, l, l', l'.h.queue[|l.h.queue|]);
      }
    }
    if l'.h.queue == l.h.queue {
      assert l'.Unheard() == l.Unheard();
    }
  }

  lemma NegotiateKeeps(l: Link, s: Substream, l': Link)
    requires Ok(l.h) && l' == l.(h := OnNegotiated(l.h, s))
    ensures Keeps(l, l')
    ensures Untouched(l) ==> Untouched(l')
  {
    forall open | HandlerFits(open, l) ensures HandlerFits(open, l') {
      if l.h.state.Opening? {
        OneMoreReport(open, l, l', Custom(CustomProtocolOpen));
      }
    }
    if l'.h.queue == l.h.queue {
      assert l'.Unheard() == l.Unheard();
    }
  }

  lemma FailUpgradeKeeps(l: Link, isSevere: bool, l': Link)
    requires Ok(l.h) && l' == l.(h := OnUpgradeError(l.h, isSevere))
    ensures Keeps(l, l')
    ensures Untouched(l) ==> Untouched(l')
  {
    forall open | HandlerFits(open, l) ensures HandlerFits(open, l') {
      OneMoreReport(open, l, l', Custom(ProtocolError(isSevere)));
    }
    if Untouched(l) {
      OneMoreReport(false, l, l', Custom(ProtocolError(isSevere)));
      assert Reports([Custom(ProtocolError(isSevere))]) == [ProtocolError(isSevere)];
    }
  }

  lemma PollKeeps(l: Link, a: Answers, h: Handler, r: PollResult)
    requires Ok(l.h) && Fits(l.h.state, a) && HandlerPolled(l.h, a, h, r)
    ensures Keeps(l, AfterPoll(l, h, r))
    ensures Untouched(l) ==> Untouched(AfterPoll(l, h, r))
  {
    var l' := AfterPoll(l, h, r);
    PollKeepsOk(l.h, a, h, r);
    if l.h.queue != [] {
      assert l'.Unheard() == l.Unheard();
    } else {
      IdlePollKeeps(l, a, h, r);
    }
  }

  /** What a poll of an idle queue reports. */
  lemma PollReports(h: Handler, a: Answers, h': Handler, r: PollResult)
    requires Ok(h) && h.queue == [] && Fits(h.state, a) && HandlerPolled(h, a, h', r)
    ensures h'.queue == []
    ensures !h.state.KillAsap? ==> !h'.state.KillAsap?
    ensures !h.state.KillAsap? && r.Ready? && r.output.Custom? ==> Heard(h.state.Normal?, r.output.out) == Some(h'.state.Normal?)
    ensures !h.state.KillAsap? && !(r.Ready? && r.output.Custom?) ==> h'.state.Normal? == h.state.Normal?
    ensures h.state.KillAsap? ==> h'.state.KillAsap? && r.Kill?
    ensures h.state.Init? ==> h'.state.Init? && !r.Ready?
    ensures h.state.Closing? && !h.state.reenable ==> h'.state.Closing? && !h'.state.reenable && !r.Ready?
  {
    hide NormalPolled;
    hide ShutdownPolled;
    hide StillClosing;
    if h.state.Normal? {
      PassReports(h.state.substreams, h.state.shutdown, a.polls, h'.state, match r case Ready(o) => [o] case _ => []);
    }
  }

  lemma IdlePollKeeps(l: Link, a: Answers, h: Handler, r: PollResult)
    requires Ok(l.h) && Ok(h) && l.h.queue == [] && Fits(l.h.state, a) && HandlerPolled(l.h, a, h, r)
    ensures Keeps(l, AfterPoll(l, h, r))
    ensures Untouched(l) ==> Untouched(AfterPoll(l, h, r))
  {
    PollReports(l.h, a, h, r);
    hide HandlerPolled;
    var l' := AfterPoll(l, h, r);
    var more := if r.Ready? && r.output.Custom? then [r.output.out] else [];
    assert l'.Unheard() == l.Unheard() + more;
    forall open | HandlerFits(open, l) ensures HandlerFits(open, l') {
      FollowMore(open, l.Unheard(), more);
    }
  }

  lemma PassReports(s: seq<Substream>, shutdown: seq<Substream>, polls: seq<Polled>, st: State, out: seq<Output>)
    requires |s| == |polls| && NormalPolled(s, shutdown, polls, st, out)
    ensures |out| <= 1
    ensures out != [] ==> out[0].Custom? && Heard(true, out[0].out) == Some(st.Normal?)
    ensures out == [] ==> st.Normal?
    ensures st.Normal? || st.Closing?
  {
  }

  /** A handler step at `p` that keeps what the handler has to keep. */
  lemma HandlerStepFine(n: Net, p: PeerId, l': Link)
    requires Fine(n) && p in n.links && Keeps(n.links[p], l')
    requires forall c :: c in l'.inbox ==> c in n.links[p].inbox
    requires Untouched(n.links[p]) && Enable !in n.links[p].inbox ==> Untouched(l')
    ensures Fine(WithLink(n, p, l'))
  {
    assert PeerFine(n, p);
    assert HandlerFits(n.b.IsOpen(p), n.links[p]);
    LinkFine(n, p, l');
  }

  /** The next event is handed over. */
  lemma DeliverKeepsFine(n: Net, n': Net)
    requires Fine(n) && n.delivered < |n.b.events|
    requires n' == n.(delivered := n.delivered + 1, links := Handed(n.links, n.b.events[n.delivered]))
    ensures Fine(n')
  {
    hide Told;
    hide Switched;
    hide HandlerFits;
    forall p ensures PeerFine(n', p) {
      assert PeerFine(n, p);
      if p in n.links {
        assert n'.links[p].Unheard() == n.links[p].Unheard();
        InboxIsIrrelevant(n.b.IsOpen(p), n.links[p], n'.links[p]);
      }
    }
  }

  lemma InboxIsIrrelevant(open: bool, l: Link, l': Link)
    requires HandlerFits(open, l) && l' == l.(inbox := l'.inbox)
    ensures HandlerFits(open, l')
  {
    assert l'.Unheard() == l.Unheard();
  }

  // ----- reports reach the behaviour

  lemma FirstReport(open: bool, l: Link, l': Link)
    requires HandlerFits(open, l) && l.channel != [] && l' == l.(channel := l.channel[1..])
    ensures Heard(open, l.channel[0]).Some? && HandlerFits(Heard(open, l.channel[0]).value, l')
    ensures Untouched(l) ==> l.channel[0].ProtocolError? && Untouched(l')
  {
    assert l.Unheard()[0] == l.channel[0] && l.Unheard()[1..] == l'.Unheard();
  }

  /** The report is an error: at most the behaviour disconnects. */
  lemma ErrorKeepsFine(n: Net, p: PeerId, now: nat, l': Link)
    requires Fine(n) && p in n.links && n.links[p].channel != [] && n.links[p].channel[0].ProtocolError?
    requires l' == n.links[p].(channel := n.links[p].channel[1..])
    ensures Fine(WithLink(n, p, l').(b := InjectNodeEvent(n.b, p, n.links[p].channel[0], now).next))
  {
    assert PeerFine(n, p);
    FirstReport(n.b.IsOpen(p), n.links[p], l');
    LinkFine(n, p, l');
    if n.links[p].channel[0].isSevere {
      forall q | q in n.b.peers ensures !n.b.peers[q].Poisoned? {
        assert PeerFine(n, q);
      }
      var more := DisconnectIsGood(n.b, p, Some(5 * SECOND), now);
      MoveKeepsFine(WithLink(n, p, l'), DisconnectPeer(n.b, p, Some(5 * SECOND), now).next, p, more);
    }
  }

  /** What listeners are told of a report. */
  function NewsOf(p: PeerId, out: HandlerOut): Event
    requires !out.ProtocolError?
  {
    match out
    case CustomProtocolOpen => ExternalOpen(p)
    case CustomProtocolClosed => ExternalClosed(p)
    case CustomMessage(message) => ExternalMessage(p, message)
    case Clogged => ExternalClogged(p)
  }

  /** What hearing it does to the behaviour: the open flag follows, and a closed peer is disabled. */
  lemma NewsMoves(b: Behaviour, p: PeerId, out: HandlerOut, now: nat) returns (off: seq<Event>)
    requires b.IsLinked(p) && !b.peers[p].Incoming? && !out.ProtocolError? && Heard(b.IsOpen(p), out).Some?
    ensures var b' := InjectNodeEvent(b, p, out, now).next;
            && b'.events == b.events + [NewsOf(p, out)] + off && Moves(b, b', p, [NewsOf(p, out)] + off)
            && b'.incoming == b.incoming && b'.nextIndex == b.nextIndex
            && b'.IsLinked(p) && !b'.peers[p].Incoming? && b'.IsOpen(p) == Heard(b.IsOpen(p), out).value
            && if off == [] then Expected(b'.peers[p]) == Expected(b.peers[p])
               else off == [SendEvent(p, Disable)] && Expected(b'.peers[p]) == Some(Disable)
  {
    off := if out.CustomProtocolClosed? && b.peers[p].Enabled? then [SendEvent(p, Disable)] else [];
    assert InjectNodeEvent(b, p, out, now).next.events == b.events + ([NewsOf(p, out)] + off);
  }

  lemma NewsPeerFine(n: Net, p: PeerId, now: nat, n': Net)
    requires Fine(n) && p in n.links && n.links[p].channel != [] && !n.links[p].channel[0].ProtocolError?
    requires n' == WithLink(n, p, n.links[p].(channel := n.links[p].channel[1..]))
                   .(b := InjectNodeEvent(n.b, p, n.links[p].channel[0], now).next)
    ensures PeerFine(n', p)
    ensures exists more :: Moves(n.b, n'.b, p, more)
    ensures n'.b.incoming == n.b.incoming && n'.b.nextIndex == n.b.nextIndex && !n'.b.peers[p].Incoming?
  {
    hide HandlerFits, Told, Switched, InjectNodeEvent, Moves;
    assert PeerFine(n, p);
    var out := n.links[p].channel[0];
    FirstReport(n.b.IsOpen(p), n.links[p], n'.links[p]);
    var e := NewsOf(p, out);
    var off := NewsMoves(n.b, p, out, now);
    ToldOne(n.b.events, e, p);
    ToldMore(n.b.events + [e], off, p);
    SwitchedMore(n.b.events, [e], n.links[p].start, p);
    SwitchedMore(n.b.events + [e], off, n.links[p].start, p);
    SwitchOfOne(e, p);
    SwitchOfOne(SendEvent(p, Disable), p);
  }

  lemma NewsKeepsFine(n: Net, p: PeerId, now: nat, n': Net)
    requires Fine(n) && p in n.links && n.links[p].channel != [] && !n.links[p].channel[0].ProtocolError?
    requires n' == WithLink(n, p, n.links[p].(channel := n.links[p].channel[1..]))
                   .(b := InjectNodeEvent(n.b, p, n.links[p].channel[0], now).next)
    ensures Fine(n')
  {
    hide PeerFine;
    hide InjectNodeEvent;
    NewsPeerFine(n, p, now, n');
    var more :| Moves(n.b, n'.b, p, more);
    forall q | q != p ensures PeerFine(n', q) && n'.b.At(q) == n.b.At(q) {
      assert PeerFine(n, q);
      OtherFine(n, n', p, more, q);
    }
    forall q | q in n'.b.peers && n'.b.peers[q].Incoming? ensures q in n.b.peers && n.b.peers[q].Incoming? {
      assert q != p && n'.b.At(q) == n.b.At(q);
    }
    EntriesKept(n.b, n'.b);
  }

  // ----- every step, every run

  lemma StepKeepsFine(n: Net, act: Act, now: nat, n': Net)
    requires Fine(n) && Allowed(n, act, now)
    requires (forall p :: p in n.links ==> Ok(n.links[p].h)) && Next(n, act, now, n')
    ensures Fine(n')
  {
    hide Fine;
    hide HandlerPolled;
    if IsTurn(act) {
      TurnKeepsFine(n, act, now);
    } else {
      match act
      case PeerConnected(p, point) => ConnectedKeepsFine(n, p, point, n');
      case PeerLost(p, ban) => LostKeepsFine(n, p, ban, now, n');
      case Deliver => DeliverKeepsFine(n, n');
      case Obey(p) =>
        ObeyKeeps(n.links[p], n'.links[p]);
        HandlerStepFine(n, p, n'.links[p]);
      case Negotiate(p, s) =>
        NegotiateKeeps(n.links[p], s, n'.links[p]);
        HandlerStepFine(n, p, n'.links[p]);
      case FailUpgrade(p, isSevere) =>
        FailUpgradeKeeps(n.links[p], isSevere, n'.links[p]);
        HandlerStepFine(n, p, n'.links[p]);
      case PollHandler(p, a) =>
        var h, r :| HandlerPolled(n.links[p].h, a, h, r) && n' == WithLink(n, p, AfterPoll(n.links[p], h, r));
        PollKeeps(n.links[p], a, h, r);
        HandlerStepFine(n, p, n'.links[p]);
      case Hear(p) =>
        if n.links[p].channel[0].ProtocolError? {
          ErrorKeepsFine(n, p, now, n'.links[p]);
        } else {
          NewsKeepsFine(n, p, now, n');
        }
    }
  }
}
