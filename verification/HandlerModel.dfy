/** The connection handler: one per connection, it opens and closes substreams as the behaviour enables or disables
    it, and reports what happens.  Substreams, timers and the remote are the environment: what a poll of them returns
    is an input. */
module HandlerModel {
  import opened PeerBehaviour

  /** A negotiated substream, with the packets still to be sent. */
  datatype Substream = Substream(id: nat, closing: bool, sendQueue: seq<string>)
  {
    function Shutdown(): Substream { this.(closing := true, sendQueue := []) }

    function Send(message: string): Substream { if closing then this else this.(sendQueue := sendQueue + [message]) }
  }

  /** What polling a substream returns. */
  datatype Polled = NotReady | Received(message: string) | CloggedUp | Ended | Failed
  {
    predicate Stops() { Received? || CloggedUp? }

    predicate Gone() { Ended? || Failed? }
  }

  datatype State =
    | Init(substreams: seq<Substream>)
    | Opening
    | Normal(substreams: seq<Substream>, shutdown: seq<Substream>)
    | Closing(shutdown: seq<Substream>, reenable: bool)
    | KillAsap
    | Broken

  datatype Output = OutboundSubstreamRequest | Custom(out: HandlerOut)

  datatype Handler = Handler(state: State, queue: seq<Output>, endpoint: Endpoint)

  function NewHandler(endpoint: Endpoint): Handler { Handler(Init([]), [], endpoint) }

  function ShutdownAll(s: seq<Substream>): seq<Substream> { seq(|s|, i requires 0 <= i < |s| => s[i].Shutdown()) }

  // ----- what the behaviour and the connection do to a handler

  function OnEnable(h: Handler): Handler {
    match h.state
    case Init(incoming) =>
      if incoming == [] then
        h.(state := Opening, queue := if h.endpoint.Dialer? then h.queue + [OutboundSubstreamRequest] else h.queue)
      else
        h.(state := Normal(incoming, []), queue := h.queue + [Custom(CustomProtocolOpen)])
    case Closing(shutdown, _) => h.(state := Closing(shutdown, true))
    case _ => h
  }

  function OnDisable(h: Handler): Handler {
    match h.state
    case Init(incoming) => h.(state := Closing(ShutdownAll(incoming), false))
    case Opening => h.(state := KillAsap)
    case Normal(_, _) => h.(state := KillAsap)
    case Closing(shutdown, _) => h.(state := Closing(shutdown, false))
    case _ => h
  }

  function OnNegotiated(h: Handler, s: Substream): Handler {
    match h.state
    case Init(substreams) => h.(state := Init(substreams + [s]))
    case Opening => h.(state := Normal([s], []), queue := h.queue + [Custom(CustomProtocolOpen)])
    case Normal(existing, shutdown) => h.(state := Normal(existing + [s], shutdown))
    case Closing(shutdown, _) => h.(state := Closing(shutdown + [s.Shutdown()], false))
    case _ => h
  }

  /** `substreams[0]` takes the message, so there has to be one. */
  function OnSend(h: Handler, message: string): Handler
    requires h.state.Normal? ==> h.state.substreams != []
  {
    match h.state
    case Normal(substreams, shutdown) => h.(state := Normal(substreams[0 := substreams[0].Send(message)], shutdown))
    case _ => h
  }

  function OnUpgradeError(h: Handler, isSevere: bool): Handler {
    h.(queue := h.queue + [Custom(ProtocolError(isSevere))])
  }

  // ----- polling

  /** The substreams polled as `polls` that stay. */
  function Kept(s: seq<Substream>, polls: seq<Polled>): seq<Substream>
    requires |s| == |polls|
    decreases |s|
  {
    if s == [] then [] else (if polls[0].Gone() then [] else [s[0]]) + Kept(s[1..], polls[1..])
  }

  /** The substreams ended by the remote, in the order they are polled: last first. */
  function EndedOnes(s: seq<Substream>, polls: seq<Polled>): seq<Substream>
    requires |s| == |polls|
    decreases |s|
  {
    if s == [] then [] else EndedOnes(s[1..], polls[1..]) + if polls[0].Ended? then [s[0]] else []
  }

  /** The substream that interrupts a pass: the last one with something to report. */
  function LastStop(polls: seq<Polled>): (r: int)
    ensures -1 <= r < |polls|
    ensures r >= 0 ==> polls[r].Stops()
    ensures forall i :: r < i < |polls| ==> !polls[i].Stops()
    decreases |polls|
  {
    if polls == [] then -1
    else if polls[|polls| - 1].Stops() then |polls| - 1
    else LastStop(polls[..|polls| - 1])
  }

  function ReportOf(p: Polled): HandlerOut
    requires p.Stops()
  {
    match p
    case Received(message) => CustomMessage(message)
    case CloggedUp => Clogged
  }

  /** One pass over the open substreams, from the last to the first, up to the first that has something to report.
      The order in which the open substreams are kept is left open. */
  ghost predicate NormalPolled(s: seq<Substream>, shutdown: seq<Substream>, polls: seq<Polled>, st: State, out: seq<Output>)
    requires |s| == |polls|
  {
    var k := LastStop(polls);
    var closed := shutdown + EndedOnes(s[k + 1..], polls[k + 1..]);
    if k < 0 && Kept(s, polls) == [] then st == Closing(closed, true) && out == [Custom(CustomProtocolClosed)]
    else
      && st.Normal? && st.shutdown == closed
      && multiset(st.substreams) == multiset(s[..k + 1]) + multiset(Kept(s[k + 1..], polls[k + 1..]))
      && out == if k < 0 then [] else [Custom(ReportOf(polls[k]))]
  }

  /** `rest` is what remains of `s` when the substreams that `ended` says are done are taken out. */
  ghost predicate ShutdownPolled(s: seq<Substream>, ended: seq<bool>, rest: seq<Substream>)
    requires |s| == |ended|
  {
    multiset(rest) == multiset(StillClosing(s, ended))
  }

  function StillClosing(s: seq<Substream>, ended: seq<bool>): seq<Substream>
    requires |s| == |ended|
    decreases |s|
  {
    if s == [] then [] else (if ended[0] then [] else [s[0]]) + StillClosing(s[1..], ended[1..])
  }

  /** What the environment answers during a poll: the open substreams, the ones shutting down, the opening timer. */
  datatype Answers = Answers(polls: seq<Polled>, ended: seq<bool>, timedOut: bool)

  predicate Fits(st: State, a: Answers) {
    && (st.Normal? ==> |a.polls| == |st.substreams|)
    && (st.Closing? ==> |a.ended| == |st.shutdown|)
  }

  /** `poll_state`: the new state and what it reports.  Not called once the connection is to be killed. */
  ghost predicate StatePolled(st: State, a: Answers, st': State, out: seq<Output>)
    requires Fits(st, a)
  {
    match st
    case Opening => st' == st && out == if a.timedOut then [Custom(ProtocolError(true))] else []
    case Normal(substreams, shutdown) => NormalPolled(substreams, shutdown, a.polls, st', out)
    case Closing(shutdown, reenable) =>
      if reenable && StillClosing(shutdown, a.ended) == [] then st' == Opening && out == [OutboundSubstreamRequest]
      else st'.Closing? && st'.reenable == reenable && ShutdownPolled(shutdown, a.ended, st'.shutdown) && out == []
    case _ => st' == st && out == []
  }

  datatype PollResult = Ready(output: Output) | Pending | Kill

  ghost predicate HandlerPolled(h: Handler, a: Answers, h': Handler, r: PollResult)
    requires Fits(h.state, a)
  {
    if h.queue != [] then r == Ready(h.queue[0]) && h' == h.(queue := h.queue[1..])
    else if h.state.KillAsap? then r == Kill && h' == h
    else
      && h' == h.(state := h'.state)
      && StatePolled(h.state, a, h'.state, match r case Ready(o) => [o] case _ => [])
      && !r.Kill?
  }
}
