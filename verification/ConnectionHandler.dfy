/** The mutable connection handler, proved against module `HandlerModel`. */
module ConnectionHandler {
  import opened Basics
  import opened PeerTable
  import opened PeerBehaviour
  import opened HandlerModel

  /** Removes element `n` by moving the last element into its place. */
  function SwapRemove<T>(s: seq<T>, n: nat): (r: seq<T>)
    requires n < |s|
    ensures |r| == |s| - 1
  {
    if n == |s| - 1 then s[..n] else s[n := s[|s| - 1]][..|s| - 1]
  }

  lemma SwapRemoveKeepsRest<T>(s: seq<T>, n: nat)
    requires n < |s|
    ensures SwapRemove(s, n)[..n] == s[..n]
    ensures multiset(s) == multiset(SwapRemove(s, n)) + multiset([s[n]])
  {
    var r := SwapRemove(s, n);
    if n == |s| - 1 {
      assert s == r + [s[n]];
    } else {
      var tail := s[n + 1..|s| - 1];
      assert r == s[..n] + [s[|s| - 1]] + tail;
      assert s == s[..n] + ([s[n]] + tail + [s[|s| - 1]]);
      hide SwapRemove;
      SameBag(s[..n], [s[n]], tail, [s[|s| - 1]]);
    }
  }

  lemma SameBag<T>(a: seq<T>, x: seq<T>, b: seq<T>, y: seq<T>)
    ensures multiset(a + (x + b + y)) == multiset(a + y + b) + multiset(x)
  {
  }

  /** A pass over the open substreams has polled those from `n` on: the others are untouched, in place. */
  ghost predicate PassedTo(s: seq<Substream>, polls: seq<Polled>, n: nat, subs: seq<Substream>)
    requires n <= |s| == |polls|
  {
    && n <= |subs| && subs[..n] == s[..n]
    && multiset(subs) == multiset(s[..n]) + multiset(Kept(s[n..], polls[n..]))
  }

  /** Taking substream `n` out leaves the ones before it in place, and the ones kept so far. */
  lemma TakenOut(s: seq<Substream>, n: nat, subs: seq<Substream>, kept: seq<Substream>)
    requires n < |s| && n < |subs| && subs[..n + 1] == s[..n + 1]
    requires multiset(subs) == multiset(s[..n + 1]) + multiset(kept)
    ensures subs[n] == s[n] && n <= |SwapRemove(subs, n)| && SwapRemove(subs, n)[..n] == s[..n]
    ensures multiset(SwapRemove(subs, n)) == multiset(s[..n]) + multiset(kept)
  {
    hide SwapRemove;
    SwapRemoveKeepsRest(subs, n);
    assert subs[n] == subs[..n + 1][n] == s[n];
    assert subs[..n] == subs[..n + 1][..n] == s[..n];
    assert s[..n + 1] == s[..n] + [s[n]];
    CancelOne(multiset(SwapRemove(subs, n)), multiset(s[..n]) + multiset(kept), multiset([s[n]]));
  }

  /** Polling substream `n` next: the pass takes it out, and puts it back unless it is gone. */
  lemma PassStep(s: seq<Substream>, polls: seq<Polled>, n: nat, subs: seq<Substream>)
    requires n < |s| == |polls| && PassedTo(s, polls, n + 1, subs)
    ensures subs[n] == s[n]
    ensures var next := if polls[n].Gone() then SwapRemove(subs, n) else SwapRemove(subs, n) + [s[n]];
            PassedTo(s, polls, n, next)
    ensures multiset(SwapRemove(subs, n) + [s[n]]) == multiset(s[..n + 1]) + multiset(Kept(s[n + 1..], polls[n + 1..]))
  {
    hide SwapRemove, Kept;
    var rest, kept := SwapRemove(subs, n), Kept(s[n + 1..], polls[n + 1..]);
    TakenOut(s, n, subs, kept);
    assert s[..n + 1] == s[..n] + [s[n]];
    KeptStep(s, polls, n);
    assert (rest + [s[n]])[..n] == rest[..n];
    assert [] + kept == kept;
  }

  lemma CancelOne(a: multiset<Substream>, b: multiset<Substream>, c: multiset<Substream>)
    requires a + c == b + c
    ensures a == b
  {
    forall e
      ensures a[e] == b[e]
    {
      assert (a + c)[e] == a[e] + c[e] && (b + c)[e] == b[e] + c[e];
    }
  }

  lemma KeptStep(s: seq<Substream>, polls: seq<Polled>, n: nat)
    requires n < |s| == |polls|
    ensures Kept(s[n..], polls[n..]) == (if polls[n].Gone() then [] else [s[n]]) + Kept(s[n + 1..], polls[n + 1..])
    ensures EndedOnes(s[n..], polls[n..]) == EndedOnes(s[n + 1..], polls[n + 1..]) + if polls[n].Ended? then [s[n]] else []
  {
    assert s[n..][1..] == s[n + 1..] && polls[n..][1..] == polls[n + 1..];
  }

  /** A pass that reports nothing has polled every substream once, and ends without one exactly if none is kept. */
  lemma PassDone(s: seq<Substream>, polls: seq<Polled>, subs: seq<Substream>)
    requires |s| == |polls| && PassedTo(s, polls, 0, subs)
    ensures s[0..] == s && polls[0..] == polls && multiset(subs) == multiset(Kept(s, polls))
    ensures subs == [] <==> Kept(s, polls) == []
  {
    assert s[0..] == s && polls[0..] == polls;
    assert |multiset(subs)| == |subs|;
    assert |multiset(Kept(s, polls))| == |Kept(s, polls)|;
  }

  lemma PassStart(s: seq<Substream>, polls: seq<Polled>)
    requires |s| == |polls|
    ensures PassedTo(s, polls, |s|, s) && EndedOnes(s[|s|..], polls[|s|..]) == []
  {
    assert s[..|s|] == s;
  }

  lemma NoStopBelow(polls: seq<Polled>, n: nat)
    requires n < |polls| && forall i :: n < i < |polls| ==> !polls[i].Stops()
    ensures LastStop(polls) <= n
    ensures polls[n].Stops() ==> LastStop(polls) == n
    ensures n == 0 && !polls[n].Stops() ==> LastStop(polls) == -1
  {
  }

  /** A pass has polled the substreams from `n` on and none of them had anything to report. */
  ghost predicate Pass(s: seq<Substream>, shutdown: seq<Substream>, polls: seq<Polled>, n: nat, subs: seq<Substream>, shut: seq<Substream>) {
    && n <= |s| == |polls|
    && PassedTo(s, polls, n, subs)
    && shut == shutdown + EndedOnes(s[n..], polls[n..])
    && forall i :: n <= i < |polls| ==> !polls[i].Stops()
  }

  lemma PassBegins(s: seq<Substream>, shutdown: seq<Substream>, polls: seq<Polled>)
    requires |s| == |polls|
    ensures Pass(s, shutdown, polls, |s|, s, shutdown)
  {
    PassStart(s, polls);
  }

  lemma PassNext(s: seq<Substream>, shutdown: seq<Substream>, polls: seq<Polled>, n: nat, subs: seq<Substream>, shut: seq<Substream>)
    requires n < |s| && Pass(s, shutdown, polls, n + 1, subs, shut)
    ensures n < |subs| && subs[n] == s[n]
    ensures polls[n].NotReady? ==> Pass(s, shutdown, polls, n, SwapRemove(subs, n) + [subs[n]], shut)
    ensures polls[n].Ended? ==> Pass(s, shutdown, polls, n, SwapRemove(subs, n), shut + [subs[n]])
    ensures polls[n].Failed? ==> Pass(s, shutdown, polls, n, SwapRemove(subs, n), shut)
    ensures polls[n].Stops() ==> LastStop(polls) == n
    ensures polls[n].Stops() ==>
              NormalPolled(s, shutdown, polls, Normal(SwapRemove(subs, n) + [subs[n]], shut), [Custom(ReportOf(polls[n]))])
  {
    hide SwapRemove, Kept, EndedOnes, LastStop;
    PassStep(s, polls, n, subs);
    KeptStep(s, polls, n);
    NoStopBelow(polls, n);
  }

  /** When the list is empty or the pass complete, the whole list has been polled. */
  lemma PassFinished(s: seq<Substream>, shutdown: seq<Substream>, polls: seq<Polled>, n: nat, subs: seq<Substream>, shut: seq<Substream>)
    requires s != [] && Pass(s, shutdown, polls, n, subs, shut) && (subs == [] || n == 0)
    ensures n == 0 && LastStop(polls) == -1
    ensures subs == [] ==> NormalPolled(s, shutdown, polls, Closing(shut, true), [Custom(CustomProtocolClosed)])
    ensures subs != [] ==> NormalPolled(s, shutdown, polls, Normal(subs, shut), [])
  {
    PassDone(s, polls, subs);
    NoStopBelow(polls, 0);
    assert s[..0] == [];
  }

  /** The substreams from the last down to the one at `n`. */
  function LastTo(s: seq<Substream>, n: nat): seq<Substream>
    requires n <= |s|
  {
    seq(|s| - n, i requires 0 <= i < |s| - n => s[|s| - 1 - i])
  }

  /** Polls the open substreams from the last to the first.  `polled` are those polled, each once: all of them, unless
      one has something to report. */
  method PollSubstreams(s: seq<Substream>, shutdown: seq<Substream>, polls: seq<Polled>)
    returns (st: State, out: Option<Output>, ghost polled: seq<Substream>)
    requires |s| == |polls| && s != []
    ensures polled == LastTo(s, if LastStop(polls) < 0 then 0 else LastStop(polls))
    ensures NormalPolled(s, shutdown, polls, st, match out case Some(o) => [o] case None => [])
    ensures st.Normal? ==> st.substreams != []
  {
    hide SwapRemove, NormalPolled, Pass;
    var subs, shut := s, shutdown;
    var n := |s|;
    polled := [];
    PassBegins(s, shutdown, polls);
    while n > 0
      invariant 0 <= n <= |s| && Pass(s, shutdown, polls, n, subs, shut) && polled == LastTo(s, n)
      invariant n == 0 ==> subs != []
    {
      n := n - 1;
      PassNext(s, shutdown, polls, n, subs, shut);
      var substream := subs[n];
      polled := polled + [substream];
      subs := SwapRemove(subs, n);
      match polls[n]
      case NotReady =>
        subs := subs + [substream];
      case Received(message) =>
        return Normal(subs + [substream], shut), Some(Custom(CustomMessage(message))), polled;
      case CloggedUp =>
        return Normal(subs + [substream], shut), Some(Custom(Clogged)), polled;
      case Ended =>
        shut := shut + [substream];
        if subs == [] {
          PassFinished(s, shutdown, polls, n, subs, shut);
          return Closing(shut, true), Some(Custom(CustomProtocolClosed)), polled;
        }
      case Failed =>
        if subs == [] {
          PassFinished(s, shutdown, polls, n, subs, shut);
          return Closing(shut, true), Some(Custom(CustomProtocolClosed)), polled;
        }
    }
    PassFinished(s, shutdown, polls, 0, subs, shut);
    return Normal(subs, shut), None, polled;
  }

  lemma PassEnds(s: seq<Substream>, shutdown: seq<Substream>, polls: seq<Polled>, st: State, out: seq<Output>)
    requires |s| == |polls| && NormalPolled(s, shutdown, polls, st, out)
    ensures st.Normal? || st.Closing?
  {
  }

  /** Takes the substreams that are done shutting down out of the list, from the last to the first. */
  method ShutdownList(s: seq<Substream>, ended: seq<bool>) returns (list: seq<Substream>)
    requires |s| == |ended|
    ensures ShutdownPolled(s, ended, list) && (list == [] <==> StillClosing(s, ended) == [])
  {
    list := s;
    var polls := seq(|ended|, i requires 0 <= i < |ended| => if ended[i] then Ended else NotReady);
    PassStart(s, polls);
    var n := |s|;
    while n > 0
      invariant 0 <= n <= |s| && PassedTo(s, polls, n, list)
    {
      n := n - 1;
      PassStep(s, polls, n, list);
      var substream := list[n];
      list := SwapRemove(list, n);
      if !ended[n] {
        list := list + [substream];
      }
    }
    PassDone(s, polls, list);
    ClosingIsKept(s, ended, polls);
  }

  lemma {:induction false} ClosingIsKept(s: seq<Substream>, ended: seq<bool>, polls: seq<Polled>)
    requires |s| == |ended| == |polls| && forall i :: 0 <= i < |s| ==> polls[i] == if ended[i] then Ended else NotReady
    ensures StillClosing(s, ended) == Kept(s, polls)
    decreases |s|
  {
    if s != [] {
      ClosingIsKept(s[1..], ended[1..], polls[1..]);
    }
  }

  class CustomProtoHandler {
    var state: State
    var eventsQueue: seq<Output>
    const endpoint: Endpoint

    function View(): Handler
      reads this
    {
      Handler(state, eventsQueue, endpoint)
    }

    /** An open handler has at least one open substream, and no method starts in the broken state. */
    ghost predicate Valid()
      reads this
    {
      !state.Broken? && (state.Normal? ==> state.substreams != [])
    }

    constructor (endpoint: Endpoint)
      ensures Valid() && View() == NewHandler(endpoint)
    {
      state, eventsQueue := Init([]), [];
      this.endpoint := endpoint;
    }

    method Enable()
      requires Valid()
      modifies this
      ensures Valid() && View() == OnEnable(old(View()))
    {
      match state
      case Init(incoming) =>
        if incoming == [] {
          if endpoint.Dialer? {
            eventsQueue := eventsQueue + [OutboundSubstreamRequest];
          }
          state := Opening;
        } else {
          eventsQueue := eventsQueue + [Custom(CustomProtocolOpen)];
          state := Normal(incoming, []);
        }
      case Closing(shutdown, _) =>
        state := Closing(shutdown, true);
      case _ =>
    }

    method Disable()
      requires Valid()
      modifies this`state
      ensures Valid() && View() == OnDisable(old(View()))
    {
      match state
      case Init(incoming) =>
        var shutdown := [];
        for i := 0 to |incoming|
          invariant shutdown == ShutdownAll(incoming)[..i]
        {
          shutdown := shutdown + [incoming[i].Shutdown()];
        }
        state := Closing(shutdown, false);
      case Opening =>
        state := KillAsap;
      case Normal(_, _) =>
        state := KillAsap;
      case Closing(shutdown, _) =>
        state := Closing(shutdown, false);
      case _ =>
    }

    method InjectFullyNegotiated(s: Substream)
      requires Valid()
      modifies this
      ensures Valid() && View() == OnNegotiated(old(View()), s)
    {
      match state
      case Init(substreams) =>
        state := Init(substreams + [s]);
      case Opening =>
        eventsQueue := eventsQueue + [Custom(CustomProtocolOpen)];
        state := Normal([s], []);
      case Normal(existing, shutdown) =>
        state := Normal(existing + [s], shutdown);
      case Closing(shutdown, _) =>
        state := Closing(shutdown + [s.Shutdown()], false);
      case _ =>
    }

    /** Sends on the first open substream, which always exists. */
    method SendMessage(message: string)
      requires Valid()
      modifies this`state
      ensures Valid() && View() == OnSend(old(View()), message)
    {
      if state.Normal? {
        state := Normal(state.substreams[0 := state.substreams[0].Send(message)], state.shutdown);
      }
    }

    method InjectDialUpgradeError(isSevere: bool)
      requires Valid()
      modifies this`eventsQueue
      ensures Valid() && View() == OnUpgradeError(old(View()), isSevere)
    {
      eventsQueue := eventsQueue + [Custom(ProtocolError(isSevere))];
    }

    /** Polls the substreams and timers of the current state. */
    method PollState(a: Answers) returns (out: Option<Output>)
      requires Valid() && !state.KillAsap? && Fits(state, a)
      modifies this`state
      ensures Valid() && StatePolled(old(state), a, state, match out case Some(o) => [o] case None => [])
    {
      hide ShutdownPolled, StillClosing, NormalPolled, LastTo, LastStop;
      out := None;
      match state
      case Opening =>
        if a.timedOut {
          out := Some(Custom(ProtocolError(true)));
        }
      case Normal(substreams, shutdown) =>
        state := Broken;
        var st, report, _ := PollSubstreams(substreams, shutdown, a.polls);
        PassEnds(substreams, shutdown, a.polls, st, match report case Some(o) => [o] case None => []);
        state, out := st, report;
      case Closing(shutdown, reenable) =>
        state := Broken;
        var list := ShutdownList(shutdown, a.ended);
        if reenable && list == [] {
          state := Opening;
          out := Some(OutboundSubstreamRequest);
        } else {
          state := Closing(list, reenable);
        }
      case _ =>
    }

    /** Queued reports first, then the death of the connection, then the substreams. */
    method Poll(a: Answers) returns (r: PollResult)
      requires Valid() && Fits(state, a)
      modifies this`state, this`eventsQueue
      ensures Valid() && HandlerPolled(old(View()), a, View(), r)
    {
      if eventsQueue != [] {
        r := Ready(eventsQueue[0]);
        eventsQueue := eventsQueue[1..];
        return;
      }
      if state.KillAsap? {
        return Kill;
      }
      var out := PollState(a);
      r := if out.Some? then Ready(out.value) else Pending;
    }
  }
}
