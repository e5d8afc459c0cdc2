/** The send queue of a protocol substream, and its warning that the remote is congested. */
module SubstreamQueue {
  type Packet = string

  const CLOGGED_LENGTH := 2048

  datatype StartSend = Taken | Refused | SendError

  datatype Ready = IsReady | IsPending | IsError

  datatype Incoming = Packet(message: string) | EndOfStream | Nothing | ReadError

  /** What the framed substream below answers during a poll. */
  datatype Inner = Inner(sends: seq<StartSend>, close: Ready, complete: Ready, incoming: Incoming)

  datatype PollResult = Message(message: string) | Clogged(messages: seq<Packet>) | Finished | NotReady | Failed

  /** `sunk` is what the sink below has taken so far. */
  datatype SubstreamState = SubstreamState(
    isClosing: bool, sendQueue: seq<Packet>, requiresPollComplete: bool, cloggedFuse: bool, sunk: seq<Packet>)

  const NEW := SubstreamState(false, [], false, false, [])

  /** How many packets the sink takes before it refuses one or fails. */
  function TakenOf(sends: seq<StartSend>): (n: nat)
    ensures n <= |sends| && (n < |sends| ==> !sends[n].Taken?) && forall i :: 0 <= i < n ==> sends[i].Taken?
  {
    if sends == [] || !sends[0].Taken? then 0 else 1 + TakenOf(sends[1..])
  }

  predicate SinkFails(s: SubstreamState, env: Inner) {
    |env.sends| >= |s.sendQueue| && TakenOf(env.sends) < |s.sendQueue| && env.sends[TakenOf(env.sends)].SendError?
  }

  /** The queue after the packets the sink takes have left it. */
  function Flushed(s: SubstreamState, env: Inner): SubstreamState
    requires |env.sends| >= |s.sendQueue|
  {
    var n := if TakenOf(env.sends) < |s.sendQueue| then TakenOf(env.sends) else |s.sendQueue|;
    s.(sendQueue := s.sendQueue[n..], sunk := s.sunk + s.sendQueue[..n], requiresPollComplete := s.requiresPollComplete || n > 0)
  }

  /** A poll whose sink has not failed. */
  function AfterFlush(f: SubstreamState, env: Inner): (SubstreamState, PollResult) {
    if f.isClosing then (f, match env.close case IsReady => Finished case IsPending => NotReady case IsError => Failed)
    else if |f.sendQueue| >= CLOGGED_LENGTH && !f.cloggedFuse then (f.(cloggedFuse := true), Clogged(f.sendQueue))
    else
      var g := f.(cloggedFuse := |f.sendQueue| >= CLOGGED_LENGTH);
      if g.requiresPollComplete && env.complete.IsError? then (g, Failed)
      else
        var e := g.(requiresPollComplete := g.requiresPollComplete && !env.complete.IsReady?);
        (e, match env.incoming
            case Packet(message) => Message(message)
            case EndOfStream => if !e.requiresPollComplete && e.sendQueue == [] then Finished else NotReady
            case Nothing => NotReady
            case ReadError => Failed)
  }

  class RegisteredProtocolSubstream {
    var isClosing: bool
    var sendQueue: seq<Packet>
    var requiresPollComplete: bool
    var cloggedFuse: bool
    ghost var sunk: seq<Packet>

    ghost function State(): SubstreamState
      reads this
    {
      SubstreamState(isClosing, sendQueue, requiresPollComplete, cloggedFuse, sunk)
    }

    constructor ()
      ensures State() == NEW
    {
      isClosing, sendQueue, requiresPollComplete, cloggedFuse, sunk := false, [], false, false, [];
    }

    method Shutdown()
      modifies this
      ensures State() == old(State()).(isClosing := true, sendQueue := [])
    {
      isClosing := true;
      sendQueue := [];
    }

    method SendMessage(data: Packet)
      modifies this
      ensures State() == if old(isClosing) then old(State()) else old(State()).(sendQueue := old(sendQueue) + [data])
    {
      if isClosing {
        return;
      }
      sendQueue := sendQueue + [data];
    }

    /** Hands queued packets to the sink, first in first out; a packet the sink refuses goes back to the front. */
    method Flush(env: Inner) returns (failed: bool)
      requires |env.sends| >= |sendQueue|
      modifies this
      ensures failed <==> SinkFails(old(State()), env)
      ensures failed ==> sunk == old(sunk) + old(sendQueue)[..TakenOf(env.sends)]
      ensures !failed ==> State() == Flushed(old(State()), env)
    {
      var i := 0;
      ghost var before := sendQueue;
      var blocked := false;
      while sendQueue != [] && !blocked
        invariant isClosing == old(isClosing) && cloggedFuse == old(cloggedFuse)
        invariant 0 <= i <= |before| && sendQueue == before[i..] && sunk == old(sunk) + before[..i]
        invariant requiresPollComplete == (old(requiresPollComplete) || i > 0)
        invariant forall j :: 0 <= j < i ==> env.sends[j].Taken?
        invariant blocked ==> i < |before| && env.sends[i].Refused?
        decreases |sendQueue|, !blocked
      {
        var packet := sendQueue[0];
        sendQueue := sendQueue[1..];
        match env.sends[i]
        case SendError =>
          TakenIs(env.sends, i);
          return true;
        case Refused =>
          sendQueue := [packet] + sendQueue;
          blocked := true;
        case Taken =>
          sunk := sunk + [packet];
          requiresPollComplete := true;
          i := i + 1;
      }
      TakenUpTo(env.sends, i);
      if blocked {
        TakenIs(env.sends, i);
      }
      failed := false;
    }

    method Poll(env: Inner) returns (r: PollResult)
      requires |env.sends| >= |sendQueue|
      modifies this
      ensures SinkFails(old(State()), env) ==> r == Failed && sunk == old(sunk) + old(sendQueue)[..TakenOf(env.sends)]
      ensures !SinkFails(old(State()), env) ==> (State(), r) == AfterFlush(Flushed(old(State()), env), env)
    {
      var failed := Flush(env);
      if failed {
        return Failed;
      }
      if isClosing {
        match env.close {
          case IsReady => return Finished;
          case IsPending => return NotReady;
          case IsError => return Failed;
        }
      }
      if |sendQueue| >= CLOGGED_LENGTH {
        if !cloggedFuse {
          cloggedFuse := true;
          return Clogged(sendQueue);
        }
      } else {
        cloggedFuse := false;
      }
      if requiresPollComplete {
        if env.complete.IsError? {
          return Failed;
        }
        if env.complete.IsReady? {
          requiresPollComplete := false;
        }
      }
      match env.incoming
      case Packet(message) => r := Message(message);
      case EndOfStream => r := if !requiresPollComplete && sendQueue == [] then Finished else NotReady;
      case Nothing => r := NotReady;
      case ReadError => r := Failed;
    }
  }

  lemma TakenUpTo(sends: seq<StartSend>, i: nat)
    requires i <= |sends| && forall j :: 0 <= j < i ==> sends[j].Taken?
    ensures TakenOf(sends) >= i
  {
  }

  lemma TakenIs(sends: seq<StartSend>, i: nat)
    requires i < |sends| && !sends[i].Taken? && forall j :: 0 <= j < i ==> sends[j].Taken?
    ensures TakenOf(sends) == i
  {
  }

  // ----- runs

  datatype Op = Send(data: Packet) | Shut | Polling(env: Inner)

  /** One operation; `r` is the answer of a poll. */
  predicate Step(s: SubstreamState, op: Op, s': SubstreamState, r: PollResult) {
    match op
    case Send(data) => s' == if s.isClosing then s else s.(sendQueue := s.sendQueue + [data])
    case Shut => s' == s.(isClosing := true, sendQueue := [])
    case Polling(env) =>
      |env.sends| >= |s.sendQueue| && !SinkFails(s, env) && (s', r) == AfterFlush(Flushed(s, env), env)
  }

  /** A run in which the sink has not failed. */
  predicate IsRun(subs: seq<SubstreamState>, ops: seq<Op>, results: seq<PollResult>) {
    && |subs| == |ops| + 1 && |results| == |ops|
    && subs[0] == NEW
    && forall i :: 0 <= i < |ops| ==> Step(subs[i], ops[i], subs[i + 1], results[i])
  }

  /** The packets handed in by the first `k` operations, before the shutdown. */
  function Offered(ops: seq<Op>, k: nat): seq<Packet>
    requires k <= |ops|
  {
    if k == 0 then []
    else if ops[k - 1].Send? && !ShutBy(ops, k - 1) then Offered(ops, k - 1) + [ops[k - 1].data]
    else Offered(ops, k - 1)
  }

  predicate ShutBy(ops: seq<Op>, k: nat)
    requires k <= |ops|
  {
    exists i :: 0 <= i < k && ops[i].Shut?
  }

  /** What has been offered and is not queued any more has reached the sink, in the same order. */
  lemma {:induction false} FirstInFirstOut(subs: seq<SubstreamState>, ops: seq<Op>, results: seq<PollResult>, k: nat)
    requires IsRun(subs, ops, results) && k <= |ops|
    ensures subs[k].isClosing == ShutBy(ops, k)
    ensures !ShutBy(ops, k) ==> subs[k].sunk + subs[k].sendQueue == Offered(ops, k)
    ensures ShutBy(ops, k) ==> subs[k].sendQueue == [] && subs[k].sunk <= Offered(ops, k)
    decreases k
  {
    hide Step;
    if k > 0 {
      FirstInFirstOut(subs, ops, results, k - 1);
      assert Step(subs[k - 1], ops[k - 1], subs[k - 1 + 1], results[k - 1]);
      StepKeepsOrder(subs[k - 1], ops[k - 1], subs[k], results[k - 1]);
      assert ShutBy(ops, k) <==> ShutBy(ops, k - 1) || ops[k - 1].Shut?;
    }
  }

  lemma StepKeepsOrder(s: SubstreamState, op: Op, s': SubstreamState, r: PollResult)
    requires Step(s, op, s', r)
    ensures s'.isClosing == (s.isClosing || op.Shut?)
    ensures op.Shut? ==> s'.sendQueue == [] && s'.sunk == s.sunk
    ensures op.Send? && s.isClosing ==> s' == s
    ensures op.Send? && !s.isClosing ==> s'.sunk + s'.sendQueue == s.sunk + s.sendQueue + [op.data]
    ensures op.Polling? ==> s'.sunk + s'.sendQueue == s.sunk + s.sendQueue && (s.sendQueue == [] ==> s'.sendQueue == [] && s'.sunk == s.sunk)
  {
    if op.Polling? {
      FlushKeepsOrder(s, op.env);
    } else if op.Send? && !s.isClosing {
      assert s'.sunk + s'.sendQueue == s.sunk + s.sendQueue + [op.data];
    }
  }

  lemma FlushKeepsOrder(s: SubstreamState, env: Inner)
    requires |env.sends| >= |s.sendQueue|
    ensures var f := Flushed(s, env); f.sunk + f.sendQueue == s.sunk + s.sendQueue
    ensures s.sendQueue == [] ==> Flushed(s, env).sunk == s.sunk
  {
  }

  /** How many packets a poll finds queued once the sink has taken what it can. */
  function Seen(s: SubstreamState, env: Inner): nat
    requires |env.sends| >= |s.sendQueue|
  {
    |Flushed(s, env).sendQueue|
  }

  /** The poll at `k` found fewer packets than the limit, on an open substream. */
  predicate SawRoom(subs: seq<SubstreamState>, ops: seq<Op>, k: nat)
    requires k < |ops| && k < |subs|
  {
    && ops[k].Polling? && |ops[k].env.sends| >= |subs[k].sendQueue|
    && !subs[k].isClosing && Seen(subs[k], ops[k].env) < CLOGGED_LENGTH
  }

  // ----- what a poll does

  /** A poll hands over exactly the packets the sink takes, from the front. */
  lemma PollSinks(s: SubstreamState, env: Inner)
    requires |env.sends| >= |s.sendQueue| && !SinkFails(s, env)
    ensures var s' := AfterFlush(Flushed(s, env), env).0;
            && s'.sunk + s'.sendQueue == s.sunk + s.sendQueue
            && (s'.sendQueue == [] || env.sends[|s.sendQueue| - |s'.sendQueue|].Refused?)
            && forall i :: 0 <= i < |s.sendQueue| - |s'.sendQueue| ==> env.sends[i].Taken?
  {
    FlushKeepsOrder(s, env);
  }

  /** The fuse is set exactly if a warning was given and no poll has found room since. */
  lemma {:induction false} FuseMeans(subs: seq<SubstreamState>, ops: seq<Op>, results: seq<PollResult>, k: nat)
    requires IsRun(subs, ops, results) && k <= |ops|
    ensures subs[k].cloggedFuse <==> WarnedSince(subs, ops, results, k)
    decreases k
  {
    hide Step, SawRoom;
    if k > 0 {
      var n := k - 1;
      FuseMeans(subs, ops, results, n);
      assert Step(subs[n], ops[n], subs[n + 1], results[n]);
      StepFuse(subs, ops, results, n);
      assert IsLastWarning(subs, ops, results, k, n) <==> ops[n].Polling? && results[n].Clogged?;
      assert forall i: nat :: i < n ==>
          (IsLastWarning(subs, ops, results, k, i) <==> IsLastWarning(subs, ops, results, n, i) && !SawRoom(subs, ops, n));
    }
  }

  lemma StepFuse(subs: seq<SubstreamState>, ops: seq<Op>, results: seq<PollResult>, n: nat)
    requires n < |ops| && n < |results| && n + 1 < |subs| && Step(subs[n], ops[n], subs[n + 1], results[n])
    ensures subs[n + 1].cloggedFuse <==>
            (ops[n].Polling? && results[n].Clogged?) || (subs[n].cloggedFuse && !SawRoom(subs, ops, n))
    ensures ops[n].Polling? && results[n].Clogged? ==> !SawRoom(subs, ops, n)
  {
  }

  ghost predicate IsLastWarning(subs: seq<SubstreamState>, ops: seq<Op>, results: seq<PollResult>, k: nat, i: nat)
    requires k <= |ops| == |results| < |subs|
  {
    i < k && ops[i].Polling? && results[i].Clogged? && forall j :: i < j < k ==> !SawRoom(subs, ops, j)
  }

  ghost predicate WarnedSince(subs: seq<SubstreamState>, ops: seq<Op>, results: seq<PollResult>, k: nat)
    requires k <= |ops| == |results| < |subs|
  {
    exists i :: IsLastWarning(subs, ops, results, k, i)
  }

  /** A warning is given exactly by a poll that finds too many packets on an open substream, unless one was given since a
      poll last found room; and it shows the packets that are queued. */
  lemma WarnsWhenFull(subs: seq<SubstreamState>, ops: seq<Op>, results: seq<PollResult>, k: nat)
    requires IsRun(subs, ops, results) && k < |ops| && ops[k].Polling?
    ensures |ops[k].env.sends| >= |subs[k].sendQueue|
    ensures results[k].Clogged? <==>
            !subs[k].isClosing && Seen(subs[k], ops[k].env) >= CLOGGED_LENGTH && !WarnedSince(subs, ops, results, k)
    ensures results[k].Clogged? ==> results[k].messages == subs[k + 1].sendQueue
  {
    FuseMeans(subs, ops, results, k);
    assert Step(subs[k], ops[k], subs[k + 1], results[k]);
  }

  /** Between two congestion warnings, some poll has found room. */
  lemma WarningsAreSeparated(subs: seq<SubstreamState>, ops: seq<Op>, results: seq<PollResult>, i: nat, j: nat)
    requires IsRun(subs, ops, results) && i < j < |ops|
    requires ops[i].Polling? && results[i].Clogged? && ops[j].Polling? && results[j].Clogged?
    ensures exists k :: i < k < j && SawRoom(subs, ops, k)
  {
    WarnsWhenFull(subs, ops, results, j);
    assert !IsLastWarning(subs, ops, results, j, i);
  }

  /** What an open substream reads is passed on as it came, unless the poll has a warning to give or the sink fails. */
  lemma ReadsThrough(subs: seq<SubstreamState>, ops: seq<Op>, results: seq<PollResult>, k: nat)
    requires IsRun(subs, ops, results) && k < |ops| && ops[k].Polling?
    ensures results[k].Message? ==> ops[k].env.incoming == Packet(results[k].message)
    ensures ops[k].env.incoming.Packet? && !subs[k].isClosing && !results[k].Clogged? && !ops[k].env.complete.IsError? ==>
              results[k].Message?
  {
    assert Step(subs[k], ops[k], subs[k + 1], results[k]);
  }

  /** The end of an open substream is reported only once everything offered has reached the sink and was completed. */
  lemma FinishedIsFlushed(subs: seq<SubstreamState>, ops: seq<Op>, results: seq<PollResult>, k: nat)
    requires IsRun(subs, ops, results) && k < |ops| && ops[k].Polling? && results[k].Finished? && !ShutBy(ops, k)
    ensures subs[k + 1].sunk == Offered(ops, k) && !subs[k + 1].requiresPollComplete
    ensures ops[k].env.incoming.EndOfStream?
  {
    FirstInFirstOut(subs, ops, results, k);
    FirstInFirstOut(subs, ops, results, k + 1);
    assert Step(subs[k], ops[k], subs[k + 1], results[k]);
  }

  /** The poll at `i` handed a packet to the sink; the one at `j` had the sink complete what it has taken. */
  predicate SinksAt(subs: seq<SubstreamState>, i: nat)
    requires i + 1 < |subs|
  {
    |subs[i].sunk| < |subs[i + 1].sunk|
  }

  predicate CompletesAt(subs: seq<SubstreamState>, ops: seq<Op>, results: seq<PollResult>, j: nat)
    requires j < |ops| == |results| < |subs|
  {
    ops[j].Polling? && !subs[j].isClosing && !results[j].Clogged? && ops[j].env.complete.IsReady?
  }

  ghost predicate IsUncompleted(subs: seq<SubstreamState>, ops: seq<Op>, results: seq<PollResult>, k: nat, i: nat)
    requires k <= |ops| == |results| < |subs|
  {
    i < k && SinksAt(subs, i) && forall j :: i <= j < k ==> !CompletesAt(subs, ops, results, j)
  }

  lemma StepCompletes(s: SubstreamState, op: Op, s': SubstreamState, r: PollResult)
    requires Step(s, op, s', r)
    ensures |s.sunk| <= |s'.sunk|
    ensures s'.requiresPollComplete <==>
            && (s.requiresPollComplete || |s.sunk| < |s'.sunk|)
            && !(op.Polling? && !s.isClosing && !r.Clogged? && op.env.complete.IsReady?)
  {
    if op.Polling? {
      FlushCount(s, op.env);
    }
  }

  lemma FlushCount(s: SubstreamState, env: Inner)
    requires |env.sends| >= |s.sendQueue|
    ensures var f := Flushed(s, env);
            |s.sunk| <= |f.sunk| && (f.requiresPollComplete <==> s.requiresPollComplete || |s.sunk| < |f.sunk|) && f.isClosing == s.isClosing
  {
  }

  /** A substream asks for completion exactly while the sink holds a packet taken since it last completed. */
  lemma {:induction false} AsksForCompletion(subs: seq<SubstreamState>, ops: seq<Op>, results: seq<PollResult>, k: nat)
    requires IsRun(subs, ops, results) && k <= |ops|
    ensures subs[k].requiresPollComplete <==> exists i: nat :: IsUncompleted(subs, ops, results, k, i)
    decreases k
  {
    if k > 0 {
      var n := k - 1;
      AsksForCompletion(subs, ops, results, n);
      assert Step(subs[n], ops[n], subs[n + 1], results[n]);
      StepCompletes(subs[n], ops[n], subs[k], results[n]);
      if CompletesAt(subs, ops, results, n) {
        assert forall i: nat :: i < k ==> !IsUncompleted(subs, ops, results, k, i);
      } else {
        assert forall i: nat :: i < n ==> (IsUncompleted(subs, ops, results, k, i) <==> IsUncompleted(subs, ops, results, n, i));
        assert IsUncompleted(subs, ops, results, k, n) <==> SinksAt(subs, n);
      }
    }
  }

  /** What the polls of a closing substream answer is what closing the sink below answers. */
  lemma ClosingAnswers(s: SubstreamState, env: Inner)
    requires s.isClosing
    ensures var (s', r) := AfterFlush(s, env);
            s' == s && (r.Finished? <==> env.close.IsReady?) && (r.Failed? <==> env.close.IsError?) && !r.Message? && !r.Clogged?
  {
  }

  /** An open substream that has no warning to give fails exactly when completion or reading fails, and ends exactly when
      the remote has ended it and nothing is left to send or to complete. */
  lemma OpenAnswers(s: SubstreamState, env: Inner)
    requires !s.isClosing && !AfterFlush(s, env).1.Clogged?
    ensures AfterFlush(s, env).1.Failed? <==> (s.requiresPollComplete && env.complete.IsError?) || env.incoming.ReadError?
    ensures AfterFlush(s, env).1.Finished? <==>
            env.incoming.EndOfStream? && s.sendQueue == [] && (!s.requiresPollComplete || env.complete.IsReady?)
  {
  }
}
