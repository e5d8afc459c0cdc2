/** Safety over every run of the behaviour with its handlers, whatever the interleaving. */
module ConnectionSafety {
  import opened Basics
  import opened PeerTable
  import opened PeerBehaviour
  import opened HandlerModel
  import opened HandlerRuns
  import opened Connections
  import opened ConnectionRuns

  datatype Label = Label(act: Act, now: nat)

  predicate AllOk(n: Net) { forall p :: p in n.links ==> Ok(n.links[p].h) }

  ghost predicate Takes(n: Net, l: Label, n': Net) {
    Allowed(n, l.act, l.now) && (AllOk(n) ==> Next(n, l.act, l.now, n'))
  }

  ghost predicate IsRun(nets: seq<Net>, labels: seq<Label>) {
    && |nets| == |labels| + 1
    && nets[0] == START
    && forall i :: 0 <= i < |labels| ==> Takes(nets[i], labels[i], nets[i + 1])
  }

  lemma StartIsFine()
    ensures Fine(START)
  {
  }

  lemma {:induction false} EveryRunIsFine(nets: seq<Net>, labels: seq<Label>, k: nat)
    requires IsRun(nets, labels) && k <= |labels|
    ensures Fine(nets[k]) && AllOk(nets[k])
    decreases k
  {
    hide Fine;
    if k == 0 {
      StartIsFine();
    } else {
      EveryRunIsFine(nets, labels, k - 1);
      assert Takes(nets[k - 1], labels[k - 1], nets[k - 1 + 1]);
      StepKeepsFine(nets[k - 1], labels[k - 1].act, labels[k - 1].now, nets[k]);
    }
    LinksOk(nets[k]);
  }

  /** Under every interleaving: nothing is poisoned, the connected peers are those in a connected state, and every
      undecided peer has an alive entry with an index that no other entry has. */
  lemma ConnectedStates(nets: seq<Net>, labels: seq<Label>, k: nat, p: PeerId)
    requires IsRun(nets, labels) && k <= |labels|
    ensures p in nets[k].b.peers ==> !nets[k].b.peers[p].Poisoned?
    ensures p in nets[k].links <==> nets[k].b.IsLinked(p)
    ensures p in nets[k].b.peers && nets[k].b.peers[p].Incoming? ==>
      exists i :: 0 <= i < |nets[k].b.incoming| && IsEntry(nets[k].b.incoming[i], p, true)
    ensures forall i, j :: 0 <= i < j < |nets[k].b.incoming| ==> nets[k].b.incoming[i].index != nets[k].b.incoming[j].index
  {
    EveryRunIsFine(nets, labels, k);
    assert PeerFine(nets[k], p);
  }

  /** The last Enable or Disable sent on a connection is the one its state stands for. */
  lemma CommandsMatchStates(nets: seq<Net>, labels: seq<Label>, k: nat, p: PeerId)
    requires IsRun(nets, labels) && k <= |labels| && p in nets[k].links
    ensures var last := Switched(nets[k].b.events, nets[k].links[p].start, p);
            match nets[k].b.At(p)
            case Some(Enabled(_, _)) => last == Some(Enable)
            case Some(Disabled(_, _, _)) => last == Some(Disable)
            case Some(DisabledPendingEnable(_, _, _)) => last == Some(Disable)
            case Some(Incoming(_)) => last == None
            case _ => false
  {
    EveryRunIsFine(nets, labels, k);
    assert PeerFine(nets[k], p);
  }

  // ----- Open and Closed alternate

  predicate IsNews(e: Event, p: PeerId) { (e.ExternalOpen? || e.ExternalClosed?) && e.peer == p }

  predicate IsTraffic(e: Event, p: PeerId) { (e.ExternalMessage? || e.ExternalClogged?) && e.peer == p }

  /** No Open or Closed of `p` from position `i` up to position `j`. */
  predicate NoNews(events: seq<Event>, p: PeerId, i: nat, j: nat) {
    forall m :: i <= m < j && m < |events| ==> !IsNews(events[m], p)
  }

  /** Open and Closed of `p` alternate, starting with Open, and there is traffic only in between. */
  ghost predicate Alternates(events: seq<Event>, p: PeerId) {
    && (forall j :: 0 <= j < |events| && IsNews(events[j], p) && NoNews(events, p, 0, j) ==> events[j].ExternalOpen?)
    && (forall i, j :: 0 <= i < j < |events| && IsNews(events[i], p) && IsNews(events[j], p) && NoNews(events, p, i + 1, j)
          ==> events[i].ExternalOpen? != events[j].ExternalOpen?)
    && (forall j :: 0 <= j < |events| && IsTraffic(events[j], p) ==> LastIsOpen(events, p, j))
  }

  /** The last Open or Closed of `p` before position `j` is an Open. */
  ghost predicate LastIsOpen(events: seq<Event>, p: PeerId, j: nat) {
    exists i :: 0 <= i < j && i < |events| && IsNews(events[i], p) && NoNews(events, p, i + 1, j) && events[i].ExternalOpen?
  }

  lemma {:induction false} ToldIsLast(events: seq<Event>, p: PeerId)
    requires Told(events, p).Some?
    ensures Told(events, p).value <==> LastIsOpen(events, p, |events|)
    decreases |events|
  {
    if events != [] {
      var k := |events| - 1;
      var before := events[..k];
      ToldIsLast(before, p);
      if IsNews(events[k], p) {
        if events[k].ExternalOpen? {
          assert NoNews(events, p, k + 1, |events|);
        }
      } else if Told(before, p).value {
        var i :| 0 <= i < |before| && IsNews(before[i], p) && NoNews(before, p, i + 1, |before|) && before[i].ExternalOpen?;
        forall m | i + 1 <= m < |events| ensures !IsNews(events[m], p) {
          assert m < k ==> events[m] == before[m];
        }
        assert events[i] == before[i] && NoNews(events, p, i + 1, |events|);
      }
    }
  }

  lemma {:induction false} ToldPrefix(events: seq<Event>, p: PeerId, j: nat)
    requires Told(events, p).Some? && j <= |events|
    ensures Told(events[..j], p).Some?
    decreases |events|
  {
    if j < |events| {
      ToldPrefix(events[..|events| - 1], p, j);
      assert events[..|events| - 1][..j] == events[..j];
    } else {
      assert events[..j] == events;
    }
  }

  lemma LastOfPrefix(events: seq<Event>, p: PeerId, j: nat)
    requires j <= |events|
    ensures LastIsOpen(events[..j], p, j) <==> LastIsOpen(events, p, j)
  {
    if LastIsOpen(events, p, j) {
      var i :| 0 <= i < j && i < |events| && IsNews(events[i], p) && NoNews(events, p, i + 1, j) && events[i].ExternalOpen?;
      assert events[..j][i] == events[i] && NoNews(events[..j], p, i + 1, j);
    }
    if LastIsOpen(events[..j], p, j) {
      var i :| 0 <= i < j && IsNews(events[..j][i], p) && NoNews(events[..j], p, i + 1, j) && events[..j][i].ExternalOpen?;
      forall m | i + 1 <= m < j ensures !IsNews(events[m], p) {
        assert events[..j][m] == events[m];
      }
      assert NoNews(events, p, i + 1, j);
    }
  }

  /** What `p`'s listeners were told before event `j` decides what that event may be. */
  lemma ToldAt(events: seq<Event>, p: PeerId, j: nat)
    requires Told(events, p).Some? && j < |events|
    ensures IsNews(events[j], p) ==> events[j].ExternalOpen? != LastIsOpen(events, p, j)
    ensures IsTraffic(events[j], p) ==> LastIsOpen(events, p, j)
  {
    ToldPrefix(events, p, j);
    ToldPrefix(events, p, j + 1);
    assert events[..j + 1][..j] == events[..j];
    ToldIsLast(events[..j], p);
    LastOfPrefix(events, p, j);
  }

  lemma LastNews(events: seq<Event>, p: PeerId, i: nat, j: nat)
    requires i < j <= |events| && IsNews(events[i], p) && NoNews(events, p, i + 1, j)
    ensures LastIsOpen(events, p, j) <==> events[i].ExternalOpen?
  {
    if LastIsOpen(events, p, j) {
      var m :| 0 <= m < j && m < |events| && IsNews(events[m], p) && NoNews(events, p, m + 1, j) && events[m].ExternalOpen?;
      assert m == i;
    }
  }

  lemma {:induction false} ToldAlternates(events: seq<Event>, p: PeerId)
    requires Told(events, p).Some?
    ensures Alternates(events, p)
  {
    hide Told;
    hide LastIsOpen;
    forall j | 0 <= j < |events| && IsNews(events[j], p) && NoNews(events, p, 0, j) ensures events[j].ExternalOpen? {
      ToldAt(events, p, j);
      NeverOpened(events, p, j);
    }
    forall i, j | 0 <= i < j < |events| && IsNews(events[i], p) && IsNews(events[j], p) && NoNews(events, p, i + 1, j)
      ensures events[i].ExternalOpen? != events[j].ExternalOpen?
    {
      ToldAt(events, p, j);
      LastNews(events, p, i, j);
    }
    forall j | 0 <= j < |events| && IsTraffic(events[j], p) ensures LastIsOpen(events, p, j) {
      ToldAt(events, p, j);
    }
  }

  lemma NeverOpened(events: seq<Event>, p: PeerId, j: nat)
    requires j <= |events| && NoNews(events, p, 0, j)
    ensures !LastIsOpen(events, p, j)
  {
  }

  /** In every run, the Open and Closed of each peer alternate, starting with Open, messages come only in between, and
      a peer is recorded as open exactly when the last of them was Open. */
  lemma OpenAndClosedAlternate(nets: seq<Net>, labels: seq<Label>, k: nat, p: PeerId)
    requires IsRun(nets, labels) && k <= |labels|
    ensures Alternates(nets[k].b.events, p)
    ensures nets[k].b.IsOpen(p) <==> LastIsOpen(nets[k].b.events, p, |nets[k].b.events|)
  {
    EveryRunIsFine(nets, labels, k);
    assert PeerFine(nets[k], p);
    ToldAlternates(nets[k].b.events, p);
    ToldIsLast(nets[k].b.events, p);
  }

  /** A report always fits what the behaviour knows of the peer: Closed, messages and congestion are heard only from
      an open peer, Open only from a closed one. */
  lemma ReportsFit(nets: seq<Net>, labels: seq<Label>, k: nat, p: PeerId)
    requires IsRun(nets, labels) && k <= |labels| && p in nets[k].links && nets[k].links[p].channel != []
    ensures match nets[k].links[p].channel[0]
            case CustomProtocolOpen => !nets[k].b.IsOpen(p) && p in nets[k].b.peers && !nets[k].b.peers[p].Incoming?
            case ProtocolError(_) => true
            case _ => nets[k].b.IsOpen(p)
  {
    EveryRunIsFine(nets, labels, k);
    assert PeerFine(nets[k], p);
    var l := nets[k].links[p];
    assert l.Unheard()[0] == l.channel[0];
  }

  // ----- ban deadlines

  predicate Silent(events: seq<Event>, from: nat, p: PeerId) {
    forall i :: from <= i < |events| ==> events[i] != DialPeer(p) && events[i] != SendEvent(p, Enable)
  }

  function DeadlineOf(b: Behaviour, p: PeerId): Option<nat> { if p in b.peers then b.peers[p].Deadline() else None }

  /** The deadline `d` of `p` is kept or extended, and `p` is neither dialled nor enabled. */
  predicate Respects(b: Behaviour, b': Behaviour, p: PeerId, d: nat) {
    && |b.events| <= |b'.events| && b'.events[..|b.events|] == b.events
    && DeadlineOf(b', p).Some? && DeadlineOf(b', p).value >= d
    && Silent(b'.events, |b.events|, p)
  }

  /** Anything but a new connection or a failed dial. */
  predicate IsChurn(act: Act, p: PeerId) { !(act.PeerConnected? && act.p == p) && !(act.CannotDial? && act.p == p) }

  lemma DisconnectRespects(b: Behaviour, q: PeerId, ban: Option<nat>, now: nat, p: PeerId, d: nat)
    requires DeadlineOf(b, p) == Some(d) && now < d
    ensures Respects(b, DisconnectPeer(b, q, ban, now).next, p, d)
  {
  }

  lemma ConnectRespects(b: Behaviour, q: PeerId, now: nat, p: PeerId, d: nat)
    requires DeadlineOf(b, p) == Some(d) && now < d
    ensures Respects(b, PsmConnect(b, q, now), p, d)
  {
  }

  lemma AnswerRespects(b: Behaviour, index: nat, p: PeerId, d: nat)
    requires DeadlineOf(b, p) == Some(d)
    ensures Respects(b, PsmAccept(b, index).next, p, d) && Respects(b, PsmReject(b, index), p, d)
  {
    hide FindIndex;
  }

  lemma SmallTurnRespects(b: Behaviour, act: Act, now: nat, p: PeerId, d: nat)
    requires DeadlineOf(b, p) == Some(d) && now < d && (act.CannotDial? || act.WantDrop? || act.AskSend? || act.TimerEnds?)
    requires IsChurn(act, p) && (act.TimerEnds? && act.p == p ==> d <= now)
    ensures Respects(b, Turned(b, act, now), p, d)
  {
  }

  lemma TurnRespects(b: Behaviour, act: Act, now: nat, p: PeerId, d: nat)
    requires DeadlineOf(b, p) == Some(d) && now < d && IsTurn(act) && IsChurn(act, p)
    requires act.TimerEnds? && act.p == p ==> d <= now
    ensures Respects(b, Turned(b, act, now), p, d)
  {
    hide Respects, PsmConnect, PsmAccept, PsmReject, DisconnectPeer;
    if act.WantConnect? {
      ConnectRespects(b, act.p, now, p, d);
    } else if act.Accepted? || act.Rejected? {
      AnswerRespects(b, act.index, p, d);
    } else if act.AskDisconnect? {
      DisconnectRespects(b, act.p, None, now, p, d);
    } else {
      SmallTurnRespects(b, act, now, p, d);
    }
  }

  lemma LostRespects(b: Behaviour, q: PeerId, ban: nat, now: nat, p: PeerId, d: nat)
    requires DeadlineOf(b, p) == Some(d) && now < d && b.IsLinked(q)
    ensures Respects(b, InjectDisconnected(b, q, ban, now).next, p, d)
  {
  }

  lemma HearRespects(b: Behaviour, q: PeerId, out: HandlerOut, now: nat, p: PeerId, d: nat)
    requires DeadlineOf(b, p) == Some(d) && now < d && b.IsLinked(q)
    ensures Respects(b, InjectNodeEvent(b, q, out, now).next, p, d)
  {
  }

  lemma ConnectedRespects(b: Behaviour, q: PeerId, point: Endpoint, p: PeerId, d: nat)
    requires DeadlineOf(b, p) == Some(d) && p != q
    ensures Respects(b, InjectConnected(b, q, point).next, p, d)
  {
  }

  lemma StepRespects(n: Net, act: Act, now: nat, n': Net, p: PeerId, d: nat)
    requires Fine(n) && AllOk(n) && Allowed(n, act, now) && Next(n, act, now, n')
    requires DeadlineOf(n.b, p) == Some(d) && now < d && IsChurn(act, p)
    ensures Respects(n.b, n'.b, p, d)
  {
    if IsTurn(act) {
      TurnRespects(n.b, act, now, p, d);
    } else {
      match act
      case PeerConnected(q, point) => ConnectedRespects(n.b, q, point, p, d);
      case PeerLost(q, ban) =>
        assert PeerFine(n, q);
        LostRespects(n.b, q, ban, now, p, d);
      case Hear(q) =>
        assert PeerFine(n, q);
        HearRespects(n.b, q, n.links[q].channel[0], now, p, d);
      case _ =>
    }
  }

  /** Between steps `i` and `j`: `p` makes no new connection, no dial to it fails, and the clock stays before `d`. */
  predicate ChurnBefore(labels: seq<Label>, i: nat, j: nat, p: PeerId, d: nat)
    requires j <= |labels|
  {
    forall m :: i <= m < j ==> labels[m].now < d && IsChurn(labels[m].act, p)
  }

  /** Over any run of other steps before the deadline, the deadline is kept or extended, and the peer is neither
      dialled nor enabled. */
  lemma {:induction false} BanSurvives(nets: seq<Net>, labels: seq<Label>, i: nat, j: nat, p: PeerId, d: nat)
    requires IsRun(nets, labels) && i <= j <= |labels|
    requires DeadlineOf(nets[i].b, p) == Some(d) && ChurnBefore(labels, i, j, p, d)
    ensures Respects(nets[i].b, nets[j].b, p, d)
    decreases j - i
  {
    if i < j {
      BanSurvives(nets, labels, i, j - 1, p, d);
      EveryRunIsFine(nets, labels, j - 1);
      assert Takes(nets[j - 1], labels[j - 1], nets[j - 1 + 1]);
      var d' := DeadlineOf(nets[j - 1].b, p).value;
      StepRespects(nets[j - 1], labels[j - 1].act, labels[j - 1].now, nets[j], p, d');
      RespectsChain(nets[i].b, nets[j - 1].b, nets[j].b, p, d, d');
    }
  }

  lemma RespectsChain(b: Behaviour, b1: Behaviour, b2: Behaviour, p: PeerId, d: nat, d1: nat)
    requires Respects(b, b1, p, d) && Respects(b1, b2, p, d1) && d <= d1
    ensures Respects(b, b2, p, d)
  {
    assert b2.events[..|b.events|] == b1.events[..|b.events|];
    forall i | |b.events| <= i < |b2.events| ensures b2.events[i] != DialPeer(p) && b2.events[i] != SendEvent(p, Enable) {
      if i < |b1.events| {
        assert b2.events[i] == b2.events[..|b1.events|][i] == b1.events[i];
      }
    }
  }
}
