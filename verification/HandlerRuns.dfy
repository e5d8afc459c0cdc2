/** Safety of the connection handler over whole runs. */
module HandlerRuns {
  import opened PeerBehaviour
  import opened HandlerModel

  datatype Op =
    | Enabling
    | Disabling
    | Negotiating(s: Substream)
    | Sending(message: string)
    | UpgradeError(isSevere: bool)
    | Polling(a: Answers)

  /** No broken handler, and an open one has an open substream. */
  predicate Ok(h: Handler) { !h.state.Broken? && (h.state.Normal? ==> h.state.substreams != []) }

  /** One step of a handler; `out` is what it newly has to report, in order. */
  ghost predicate Step(h: Handler, op: Op, h': Handler, out: seq<Output>)
    requires Ok(h)
  {
    match op
    case Enabling => h' == OnEnable(h) && h'.queue == h.queue + out
    case Disabling => h' == OnDisable(h) && out == []
    case Negotiating(s) => h' == OnNegotiated(h, s) && h'.queue == h.queue + out
    case Sending(message) => h' == OnSend(h, message) && out == []
    case UpgradeError(isSevere) => h' == OnUpgradeError(h, isSevere) && h'.queue == h.queue + out
    case Polling(a) =>
      && Fits(h.state, a)
      && exists r :: HandlerPolled(h, a, h', r) && out == if h.queue == [] && r.Ready? then [r.output] else []
  }

  /** A pass over at least one substream leaves at least one, or closes the handler. */
  lemma PassLeavesOne(s: seq<Substream>, shutdown: seq<Substream>, polls: seq<Polled>, st: State, out: seq<Output>)
    requires |s| == |polls| && s != [] && NormalPolled(s, shutdown, polls, st, out)
    ensures st.Normal? ==> st.substreams != []
    ensures st.Normal? || st.Closing?
  {
    var k := LastStop(polls);
    if st.Normal? {
      if k >= 0 {
        assert s[..k + 1][0] in multiset(s[..k + 1]);
        assert s[..k + 1][0] in multiset(st.substreams);
      } else {
        assert s[k + 1..] == s && polls[k + 1..] == polls;
        assert Kept(s, polls)[0] in multiset(Kept(s, polls));
        assert Kept(s, polls)[0] in multiset(st.substreams);
      }
    }
  }

  lemma PollKeepsOk(h: Handler, a: Answers, h': Handler, r: PollResult)
    requires Ok(h) && Fits(h.state, a) && HandlerPolled(h, a, h', r)
    ensures Ok(h')
  {
    hide NormalPolled;
    if h.queue == [] && h.state.Normal? {
      PassLeavesOne(h.state.substreams, h.state.shutdown, a.polls, h'.state, match r case Ready(o) => [o] case _ => []);
    }
  }

  /** Every step keeps the handler unbroken, and `substreams[0]` safe to use. */
  lemma StepKeepsOk(h: Handler, op: Op, h': Handler, out: seq<Output>)
    requires Ok(h) && Step(h, op, h', out)
    ensures Ok(h')
  {
    hide HandlerPolled;
    if op.Polling? {
      var r :| HandlerPolled(h, op.a, h', r) && out == if h.queue == [] && r.Ready? then [r.output] else [];
      PollKeepsOk(h, op.a, h', r);
    }
  }

  datatype Label = Label(op: Op, out: seq<Output>)

  ghost predicate IsRun(hs: seq<Handler>, labels: seq<Label>) {
    && |hs| == |labels| + 1
    && forall i :: 0 <= i < |labels| ==> Ok(hs[i]) ==> Step(hs[i], labels[i].op, hs[i + 1], labels[i].out)
  }

  /** No reachable handler is broken, and an open one always has an open substream. */
  lemma {:induction false} RunKeepsOk(hs: seq<Handler>, labels: seq<Label>, k: nat)
    requires IsRun(hs, labels) && Ok(hs[0]) && k <= |labels|
    ensures Ok(hs[k])
    decreases k
  {
    if k > 0 {
      RunKeepsOk(hs, labels, k - 1);
      StepKeepsOk(hs[k - 1], labels[k - 1].op, hs[k], labels[k - 1].out);
    }
  }

  // ----- a disabled handler stays quiet

  predicate Quiet(h: Handler) { h.state.KillAsap? || (h.state.Closing? && !h.state.reenable) }

  /** Opening, traffic, or an attempt to open. */
  predicate Activity(o: Output) { o.OutboundSubstreamRequest? || o.out.CustomProtocolOpen? || o.out.CustomMessage? || o.out.Clogged? }

  predicate NoActivity(out: seq<Output>) { forall i :: 0 <= i < |out| ==> !Activity(out[i]) }

  lemma QuietStep(h: Handler, op: Op, h': Handler, out: seq<Output>)
    requires Ok(h) && Quiet(h) && Step(h, op, h', out) && !op.Enabling?
    ensures Quiet(h') && NoActivity(out)
  {
    if op.UpgradeError? {
      assert h'.queue[|h.queue|..] == out == [Custom(ProtocolError(op.isSevere))];
    } else if op.Negotiating? {
      assert h'.queue[|h.queue|..] == out == [];
    }
  }

  /** After a Disable, as long as no Enable follows, no Open, no message and no outbound request is generated. */
  lemma {:induction false} DisabledStaysQuiet(hs: seq<Handler>, labels: seq<Label>, from: nat, k: nat)
    requires IsRun(hs, labels) && Ok(hs[0]) && from < k <= |labels|
    requires labels[from].op.Disabling? && forall i :: from < i < k ==> !labels[i].op.Enabling?
    ensures Quiet(hs[k])
    ensures NoActivity(labels[k - 1].out)
    decreases k
  {
    RunKeepsOk(hs, labels, k - 1);
    assert Step(hs[k - 1], labels[k - 1].op, hs[k - 1 + 1], labels[k - 1].out);
    if k > from + 1 {
      DisabledStaysQuiet(hs, labels, from, k - 1);
      QuietStep(hs[k - 1], labels[k - 1].op, hs[k], labels[k - 1].out);
    }
  }

  // ----- what is sent

  /** The packets waiting in open substreams. */
  function Waiting(s: seq<Substream>): multiset<string> {
    if s == [] then multiset{} else multiset(s[0].sendQueue) + Waiting(s[1..])
  }

  function WaitingIn(st: State): multiset<string> {
    match st
    case Init(substreams) => Waiting(substreams)
    case Normal(substreams, _) => Waiting(substreams)
    case _ => multiset{}
  }

  /** An open handler puts the packet behind those of its first substream, unless that is closing; any other drops it. */
  lemma SendIsQueued(h: Handler, message: string)
    requires Ok(h)
    ensures WaitingIn(OnSend(h, message).state) ==
            WaitingIn(h.state) + if h.state.Normal? && !h.state.substreams[0].closing then multiset{message} else multiset{}
    ensures h.state.Normal? ==> h.state.substreams[0].sendQueue <= OnSend(h, message).state.substreams[0].sendQueue
    ensures OnSend(h, message).queue == h.queue && OnSend(h, message).endpoint == h.endpoint
    ensures forall id :: Held(OnSend(h, message).state, id) == Held(h.state, id)
  {
    if h.state.Normal? {
      var s := h.state.substreams;
      assert s[0 := s[0].Send(message)][1..] == s[1..];
      assert multiset(s[0].sendQueue + [message]) == multiset(s[0].sendQueue) + multiset{message};
      forall id {
        CountOfSend(s, message, id);
      }
    }
  }

  // ----- when a substream is asked for

  /** How many substreams the outputs ask for. */
  function Requests(out: seq<Output>): nat {
    if out == [] then 0 else (if out[0].OutboundSubstreamRequest? then 1 else 0) + Requests(out[1..])
  }

  /** The handler begins to open, and it is its turn to ask: it made the connection, or it has been open before. */
  predicate MustAsk(h: Handler, h': Handler) {
    !h.state.Opening? && h'.state.Opening? && (h.state.Closing? || h.endpoint.Dialer?)
  }

  lemma StepAsks(h: Handler, op: Op, h': Handler, out: seq<Output>)
    requires Ok(h) && Step(h, op, h', out)
    ensures Requests(out) == if MustAsk(h, h') then 1 else 0
    ensures h'.endpoint == h.endpoint
    ensures !h.state.Opening? && h'.state.Opening? ==> h.state.Init? || h.state.Closing?
  {
    assert h'.queue == h.queue + out ==> h'.queue[|h.queue|..] == out;
  }

  /** Over every run a substream is asked for exactly as often as the handler begins to open on its own account. */
  ghost function Asked(labels: seq<Label>, from: nat, k: nat): nat
    requires from <= k <= |labels|
    decreases k
  {
    if k == from then 0 else Asked(labels, from, k - 1) + Requests(labels[k - 1].out)
  }

  function Openings(hs: seq<Handler>, k: nat): nat
    requires k < |hs|
  {
    if k == 0 then 0 else Openings(hs, k - 1) + if MustAsk(hs[k - 1], hs[k]) then 1 else 0
  }

  lemma {:induction false} AsksWhenOpening(hs: seq<Handler>, labels: seq<Label>, k: nat)
    requires IsRun(hs, labels) && Ok(hs[0]) && k <= |labels|
    ensures Asked(labels, 0, k) == Openings(hs, k)
    ensures hs[k].endpoint == hs[0].endpoint
    decreases k
  {
    if k > 0 {
      AsksWhenOpening(hs, labels, k - 1);
      RunKeepsOk(hs, labels, k - 1);
      assert Step(hs[k - 1], labels[k - 1].op, hs[k - 1 + 1], labels[k - 1].out);
      StepAsks(hs[k - 1], labels[k - 1].op, hs[k], labels[k - 1].out);
    }
  }

  /** A handler that has been opening since step `from` has asked exactly once, then; unless it waits for the remote, which
      made the connection, to open it for the first time. */
  lemma {:induction false} AskedOnce(hs: seq<Handler>, labels: seq<Label>, from: nat, k: nat)
    requires IsRun(hs, labels) && Ok(hs[0]) && from < k <= |labels|
    requires !hs[from].state.Opening? && forall i :: from < i <= k ==> hs[i].state.Opening?
    ensures hs[from].state.Init? || hs[from].state.Closing?
    ensures Asked(labels, from, k) == if hs[from].state.Init? && hs[0].endpoint.Listener? then 0 else 1
    decreases k
  {
    AsksWhenOpening(hs, labels, from);
    RunKeepsOk(hs, labels, k - 1);
    assert Step(hs[k - 1], labels[k - 1].op, hs[k - 1 + 1], labels[k - 1].out);
    StepAsks(hs[k - 1], labels[k - 1].op, hs[k], labels[k - 1].out);
    if k > from + 1 {
      AskedOnce(hs, labels, from, k - 1);
    }
  }

  // ----- failures

  function Errors(out: seq<Output>): seq<bool> {
    if out == [] then []
    else (if out[0].Custom? && out[0].out.ProtocolError? then [out[0].out.isSevere] else []) + Errors(out[1..])
  }

  /** An error is reported for every upgrade that fails, and a severe one whenever an idle poll finds that opening has taken
      too long. */
  lemma StepFails(h: Handler, op: Op, h': Handler, out: seq<Output>)
    requires Ok(h) && Step(h, op, h', out)
    ensures Errors(out) == match op
                           case UpgradeError(isSevere) => [isSevere]
                           case Polling(a) => if h.queue == [] && h.state.Opening? && a.timedOut then [true] else []
                           case _ => []
  {
    assert h'.queue == h.queue + out ==> h'.queue[|h.queue|..] == out;
  }

  /** Disabling a handler that is opening or open kills its connection; nothing else does. */
  lemma {:induction false} KilledWhenDisabled(hs: seq<Handler>, labels: seq<Label>, k: nat)
    requires IsRun(hs, labels) && Ok(hs[0]) && !hs[0].state.KillAsap? && k <= |labels|
    ensures hs[k].state.KillAsap? <==>
            exists i :: 0 <= i < k && labels[i].op.Disabling? && (hs[i].state.Opening? || hs[i].state.Normal?)
    decreases k
  {
    if k > 0 {
      KilledWhenDisabled(hs, labels, k - 1);
      RunKeepsOk(hs, labels, k - 1);
      assert Step(hs[k - 1], labels[k - 1].op, hs[k - 1 + 1], labels[k - 1].out);
      StepKills(hs[k - 1], labels[k - 1].op, hs[k], labels[k - 1].out);
    }
  }

  lemma StepKills(h: Handler, op: Op, h': Handler, out: seq<Output>)
    requires Ok(h) && Step(h, op, h', out)
    ensures h'.state.KillAsap? <==> h.state.KillAsap? || (op.Disabling? && (h.state.Opening? || h.state.Normal?))
  {
  }

  // ----- closing

  predicate IsShut(s: Substream) { s.closing && s.sendQueue == [] }

  lemma {:induction false} StillClosingFrom(s: seq<Substream>, ended: seq<bool>, x: Substream)
    requires |s| == |ended| && x in StillClosing(s, ended)
    ensures x in s
    decreases |s|
  {
    if x !in (if ended[0] then [] else [s[0]]) {
      StillClosingFrom(s[1..], ended[1..], x);
    }
  }

  lemma StepShuts(h: Handler, op: Op, h': Handler, out: seq<Output>)
    requires Ok(h) && Step(h, op, h', out) && !h.state.Normal?
    requires h.state.Closing? ==> forall s :: s in h.state.shutdown ==> IsShut(s)
    ensures h'.state.Closing? ==> forall s :: s in h'.state.shutdown ==> IsShut(s)
  {
    if h'.state.Closing? {
      forall s | s in h'.state.shutdown ensures IsShut(s) {
        if op.Polling? && h.queue == [] {
          assert s in multiset(h'.state.shutdown);
          assert s in multiset(StillClosing(h.state.shutdown, op.a.ended));
          StillClosingFrom(h.state.shutdown, op.a.ended, s);
        }
      }
    }
  }

  /** A handler that is closed without ever having been open has shut all its substreams, and sends nothing more on them. */
  lemma {:induction false} ClosedUnopenedIsShut(hs: seq<Handler>, labels: seq<Label>, endpoint: Endpoint, k: nat)
    requires IsRun(hs, labels) && hs[0] == NewHandler(endpoint) && k <= |labels|
    requires forall i :: 0 <= i < k ==> !hs[i].state.Normal?
    ensures hs[k].state.Closing? ==> forall s :: s in hs[k].state.shutdown ==> IsShut(s)
    decreases k
  {
    if k > 0 {
      ClosedUnopenedIsShut(hs, labels, endpoint, k - 1);
      RunKeepsOk(hs, labels, k - 1);
      assert Step(hs[k - 1], labels[k - 1].op, hs[k - 1 + 1], labels[k - 1].out);
      StepShuts(hs[k - 1], labels[k - 1].op, hs[k], labels[k - 1].out);
    }
  }

  /** Step `i` decides whether a closing handler opens again: it begins to close there, is told to enable or to disable, or
      the remote opens a substream. */
  predicate IsDecisive(hs: seq<Handler>, labels: seq<Label>, i: nat)
    requires i < |labels| < |hs|
  {
    && hs[i + 1].state.Closing?
    && (!hs[i].state.Closing? || labels[i].op.Enabling? || labels[i].op.Disabling? || labels[i].op.Negotiating?)
  }

  predicate KeepsClosing(hs: seq<Handler>, labels: seq<Label>, i: nat)
    requires i < |labels| < |hs|
  {
    hs[i + 1].state.Closing? && !IsDecisive(hs, labels, i)
  }

  lemma StepDecides(h: Handler, op: Op, h': Handler, out: seq<Output>)
    requires Ok(h) && Step(h, op, h', out) && h'.state.Closing?
    ensures !h.state.Closing? ==> h.state.Init? || h.state.Normal?
    ensures h'.state.reenable ==
            if h.state.Normal? || op.Enabling? then true
            else if h.state.Init? || op.Disabling? || op.Negotiating? then false
            else h.state.reenable
  {
  }

  /** A closing handler opens again if and only if it closed by itself or was told to enable, and nothing came after. */
  lemma {:induction false} OpensAgain(hs: seq<Handler>, labels: seq<Label>, i: nat, k: nat)
    requires IsRun(hs, labels) && Ok(hs[0]) && i < k <= |labels| && IsDecisive(hs, labels, i)
    requires forall j :: i < j < k ==> KeepsClosing(hs, labels, j)
    ensures hs[k].state.Closing? && (hs[k].state.reenable <==> hs[i].state.Normal? || labels[i].op.Enabling?)
    decreases k
  {
    RunKeepsOk(hs, labels, k - 1);
    assert Step(hs[k - 1], labels[k - 1].op, hs[k - 1 + 1], labels[k - 1].out);
    if k > i + 1 {
      assert KeepsClosing(hs, labels, k - 1);
      OpensAgain(hs, labels, i, k - 1);
    }
    StepDecides(hs[k - 1], labels[k - 1].op, hs[k], labels[k - 1].out);
  }

  // ----- no substream is lost or duplicated

  /** How many of the substreams have this id. */
  function Count(s: seq<Substream>, id: nat): nat {
    if s == [] then 0 else (if s[0].id == id then 1 else 0) + Count(s[1..], id)
  }

  /** How many substreams with this id a handler holds. */
  function Held(st: State, id: nat): nat {
    match st
    case Init(substreams) => Count(substreams, id)
    case Normal(substreams, shutdown) => Count(substreams, id) + Count(shutdown, id)
    case Closing(shutdown, _) => Count(shutdown, id)
    case _ => 0
  }

  function FailedOnes(s: seq<Substream>, polls: seq<Polled>): seq<Substream>
    requires |s| == |polls|
    decreases |s|
  {
    if s == [] then [] else (if polls[0].Failed? then [s[0]] else []) + FailedOnes(s[1..], polls[1..])
  }

  function Done(s: seq<Substream>, ended: seq<bool>): seq<Substream>
    requires |s| == |ended|
    decreases |s|
  {
    if s == [] then [] else (if ended[0] then [s[0]] else []) + Done(s[1..], ended[1..])
  }

  /** The substreams whose end a step has learnt of: open ones that failed, and closing ones that are done. */
  function Gone(h: Handler, op: Op): seq<Substream>
    requires op.Polling? ==> Fits(h.state, op.a)
  {
    if !op.Polling? || h.queue != [] then []
    else
      match h.state
      case Normal(s, _) =>
        var k := LastStop(op.a.polls) + 1;
        FailedOnes(s[k..], op.a.polls[k..])
      case Closing(s, _) => Done(s, op.a.ended)
      case _ => []
  }

  /** The substreams a step adds. */
  function Added(op: Op): seq<Substream> { if op.Negotiating? then [op.s] else [] }

  lemma {:induction false} CountOfSum(s: seq<Substream>, t: seq<Substream>, id: nat)
    ensures Count(s + t, id) == Count(s, id) + Count(t, id)
    decreases |s|
  {
    if s == [] {
      assert s + t == t;
    } else {
      CountOfSum(s[1..], t, id);
      assert (s + t)[1..] == s[1..] + t;
    }
  }

  /** What is left when the substream at `j` is taken out. */
  lemma BagWithoutOne(t: seq<Substream>, j: nat)
    requires j < |t|
    ensures multiset(t[..j] + t[j + 1..]) == multiset(t) - multiset{t[j]}
  {
    assert t == t[..j] + [t[j]] + t[j + 1..];
  }

  lemma CountWithoutOne(t: seq<Substream>, j: nat, id: nat)
    requires j < |t|
    ensures Count(t, id) == Count(t[..j] + t[j + 1..], id) + if t[j].id == id then 1 else 0
  {
    CountOfSum(t[..j], t[j + 1..], id);
    CountOfSum(t[..j], t[j..], id);
    assert t[..j] + t[j..] == t && t[j..][1..] == t[j + 1..];
  }

  /** The same substreams in another order. */
  lemma {:induction false} CountOfReordered(s: seq<Substream>, t: seq<Substream>, id: nat)
    requires multiset(s) == multiset(t)
    ensures Count(s, id) == Count(t, id)
    decreases |s|
  {
    if s == [] {
      assert |multiset(t)| == |t| && |multiset(s)| == 0;
    } else {
      assert s[0] in multiset(t);
      var j :| 0 <= j < |t| && t[j] == s[0];
      var s', t' := s[..0] + s[1..], t[..j] + t[j + 1..];
      assert multiset(s') == multiset(t') by {
        BagWithoutOne(s, 0);
        BagWithoutOne(t, j);
      }
      CountWithoutOne(s, 0, id);
      CountWithoutOne(t, j, id);
      CountOfReordered(s', t', id);
    }
  }

  lemma {:induction false} CountOfShutdown(s: seq<Substream>, id: nat)
    ensures Count(ShutdownAll(s), id) == Count(s, id)
    decreases |s|
  {
    if s != [] {
      CountOfShutdown(s[1..], id);
      assert ShutdownAll(s)[1..] == ShutdownAll(s[1..]);
    }
  }

  /** Polled substreams are kept, ended or failed. */
  lemma {:induction false} CountOfPolled(s: seq<Substream>, polls: seq<Polled>, id: nat)
    requires |s| == |polls|
    ensures Count(s, id) == Count(Kept(s, polls), id) + Count(EndedOnes(s, polls), id) + Count(FailedOnes(s, polls), id)
    decreases |s|
  {
    if s != [] {
      CountOfPolled(s[1..], polls[1..], id);
      CountOfSum(if polls[0].Gone() then [] else [s[0]], Kept(s[1..], polls[1..]), id);
      CountOfSum(EndedOnes(s[1..], polls[1..]), if polls[0].Ended? then [s[0]] else [], id);
      CountOfSum(if polls[0].Failed? then [s[0]] else [], FailedOnes(s[1..], polls[1..]), id);
    }
  }

  lemma {:induction false} CountOfClosing(s: seq<Substream>, ended: seq<bool>, id: nat)
    requires |s| == |ended|
    ensures Count(s, id) == Count(StillClosing(s, ended), id) + Count(Done(s, ended), id)
    decreases |s|
  {
    if s != [] {
      CountOfClosing(s[1..], ended[1..], id);
      CountOfSum(if ended[0] then [] else [s[0]], StillClosing(s[1..], ended[1..]), id);
      CountOfSum(if ended[0] then [s[0]] else [], Done(s[1..], ended[1..]), id);
    }
  }

  lemma PassConserves(s: seq<Substream>, shutdown: seq<Substream>, polls: seq<Polled>, st: State, out: seq<Output>, id: nat)
    requires |s| == |polls| && NormalPolled(s, shutdown, polls, st, out)
    ensures Held(st, id) + Count(FailedOnes(s[LastStop(polls) + 1..], polls[LastStop(polls) + 1..]), id)
         == Count(s, id) + Count(shutdown, id)
  {
    hide Count, Kept, EndedOnes, FailedOnes, LastStop;
    var k := LastStop(polls) + 1;
    var kept := Kept(s[k..], polls[k..]);
    CountOfPolled(s[k..], polls[k..], id);
    CountOfSum(shutdown, EndedOnes(s[k..], polls[k..]), id);
    assert Count(s[..k], id) + Count(s[k..], id) == Count(s, id) by {
      CountOfSum(s[..k], s[k..], id);
      assert s[..k] + s[k..] == s;
    }
    if st.Normal? {
      assert Count(st.substreams, id) == Count(s[..k], id) + Count(kept, id) by {
        CountOfSum(s[..k], kept, id);
        CountOfReordered(st.substreams, s[..k] + kept, id);
      }
    } else {
      assert s[k..] == s && polls[k..] == polls && s[..k] == [];
      NothingCounted(id);
    }
  }

  lemma NothingCounted(id: nat)
    ensures Count([], id) == 0
  {
  }

  lemma PollConserves(h: Handler, a: Answers, h': Handler, r: PollResult, id: nat)
    requires Ok(h) && Fits(h.state, a) && HandlerPolled(h, a, h', r)
    ensures Held(h'.state, id) + Count(Gone(h, Polling(a)), id) == Held(h.state, id)
  {
    hide NormalPolled;
    hide Count;
    NothingCounted(id);
    if h.queue == [] {
      var out := match r case Ready(o) => [o] case _ => [];
      if h.state.Normal? {
        PassConserves(h.state.substreams, h.state.shutdown, a.polls, h'.state, out, id);
      } else if h.state.Closing? {
        CountOfClosing(h.state.shutdown, a.ended, id);
        if h'.state.Closing? {
          CountOfReordered(h'.state.shutdown, StillClosing(h.state.shutdown, a.ended), id);
        }
      }
    }
  }

  lemma CountOfSend(s: seq<Substream>, message: string, id: nat)
    requires s != []
    ensures Count(s[0 := s[0].Send(message)], id) == Count(s, id)
  {
    assert s[0 := s[0].Send(message)][1..] == s[1..];
  }

  /** One step neither loses nor duplicates a substream, unless the connection is to be killed. */
  lemma StepConserves(h: Handler, op: Op, h': Handler, out: seq<Output>, id: nat)
    requires Ok(h) && Step(h, op, h', out) && !h'.state.KillAsap?
    ensures Held(h'.state, id) + Count(Gone(h, op), id) == Held(h.state, id) + Count(Added(op), id)
  {
    hide HandlerPolled;
    match op
    case Polling(a) =>
      var r :| HandlerPolled(h, a, h', r) && out == if h.queue == [] && r.Ready? then [r.output] else [];
      PollConserves(h, a, h', r, id);
    case Disabling =>
      if h.state.Init? {
        CountOfShutdown(h.state.substreams, id);
      }
    case Negotiating(s) =>
      if h.state.Init? || h.state.Normal? {
        CountOfSum(h.state.substreams, [s], id);
      } else if h.state.Closing? {
        CountOfSum(h.state.shutdown, [s.Shutdown()], id);
      }
    case Sending(message) =>
      if h.state.Normal? {
        CountOfSend(h.state.substreams, message, id);
      }
    case _ =>
  }

  /** How often `id` was negotiated in the first `k` steps, and how often its end was learnt of. */
  function AddedBy(labels: seq<Label>, k: nat, id: nat): nat
    requires k <= |labels|
  {
    if k == 0 then 0 else AddedBy(labels, k - 1, id) + Count(Added(labels[k - 1].op), id)
  }

  ghost function GoneBy(hs: seq<Handler>, labels: seq<Label>, k: nat, id: nat): nat
    requires IsRun(hs, labels) && Ok(hs[0]) && k <= |labels|
    decreases k
  {
    if k == 0 then 0
    else
      RunKeepsOk(hs, labels, k - 1);
      assert Step(hs[k - 1], labels[k - 1].op, hs[k - 1 + 1], labels[k - 1].out);
      GoneBy(hs, labels, k - 1, id) + Count(Gone(hs[k - 1], labels[k - 1].op), id)
  }

  lemma KillIsFinal(h: Handler, op: Op, h': Handler, out: seq<Output>)
    requires Ok(h) && Step(h, op, h', out) && h.state.KillAsap?
    ensures h'.state.KillAsap?
  {
  }

  /** In every run, every negotiated substream is held exactly once, ended or failed, until the connection is killed. */
  lemma {:induction false} SubstreamsConserved(hs: seq<Handler>, labels: seq<Label>, k: nat, id: nat)
    requires IsRun(hs, labels) && Ok(hs[0]) && Held(hs[0].state, id) == 0 && k <= |labels|
    ensures hs[k].state.KillAsap? || Held(hs[k].state, id) + GoneBy(hs, labels, k, id) == AddedBy(labels, k, id)
    decreases k
  {
    if k > 0 {
      hide Step;
      hide Count;
      hide Gone;
      hide Held;
      SubstreamsConserved(hs, labels, k - 1, id);
      RunKeepsOk(hs, labels, k - 1);
      var h, l, h' := hs[k - 1], labels[k - 1], hs[k - 1 + 1];
      assert Step(h, l.op, h', l.out);
      if h.state.KillAsap? {
        KillIsFinal(h, l.op, h', l.out);
      } else if !h'.state.KillAsap? {
        StepConserves(h, l.op, h', l.out, id);
      }
    }
  }
}
