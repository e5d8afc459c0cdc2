/** A stream that fetches numbered items in blocks and yields them one by one. */
module DataStream {
  import opened Basics

  /** What a query answers. */
  datatype Answer<T> = QueryPending | QueryFailed | Data(data: map<nat, T>)

  /** The environment of one poll: whether the delay is over, what the query answers, whether another backoff is granted. */
  datatype Env<T> = Env(delayOver: bool, answer: Answer<T>, backoffGranted: bool)

  /** `Panic` where the source declares a case unreachable or asserts that the cache is empty. */
  datatype PollNext<T> = Item(value: T) | Failed | Pending | Panic

  /** The stream: the next number, the items fetched ahead, and whether a delay is set. */
  datatype Stream<T> = Stream(startNumber: nat, cache: map<nat, T>, delayed: bool)

  /** `n` items from number `start` on. */
  ghost predicate IsBlock<T>(data: map<nat, T>, start: nat, source: nat -> T) {
    exists n: nat :: IsBlockOf(data, start, n, source)
  }

  ghost predicate IsBlockOf<T>(data: map<nat, T>, start: nat, n: nat, source: nat -> T) {
    && (forall k: nat :: k in data <==> start <= k < start + n)
    && (forall k: nat :: k in data ==> data[k] == source(k))
  }

  /** A query answers a block of the source that starts at the number asked for, if anything. */
  ghost predicate Trusted<T(!new)>(env: Env<T>, start: nat, source: nat -> T) {
    env.answer.Data? ==> IsBlock(env.answer.data, start, source)
  }

  /** One poll. */
  function Polled<T(!new)>(s: Stream<T>, env: Env<T>): (Stream<T>, PollNext<T>) {
    if s.startNumber in s.cache then Yielded(s, s.cache)
    else if s.delayed && !env.delayOver then (s, Pending)
    else if s.cache != map[] then (s, Panic)
    else
      match env.answer
      case QueryPending => (s, Pending)
      case QueryFailed => BackedOff(s, env)
      case Data(data) =>
        if data == map[] then BackedOff(s, env)
        else if s.startNumber !in data then (s, Panic)
        else Yielded(s, data)
  }

  function Yielded<T>(s: Stream<T>, data: map<nat, T>): (Stream<T>, PollNext<T>)
    requires s.startNumber in data
  {
    (s.(startNumber := s.startNumber + 1, cache := data - {s.startNumber}), Item(data[s.startNumber]))
  }

  function BackedOff<T>(s: Stream<T>, env: Env<T>): (Stream<T>, PollNext<T>) {
    if env.backoffGranted then (s.(delayed := true), Pending) else (s, Failed)
  }

  class DataStream<T(!new)> {
    var startNumber: nat
    var cache: map<nat, T>
    var delayed: bool

    ghost function State(): Stream<T>
      reads this
    {
      Stream(startNumber, cache, delayed)
    }

    constructor (startNumber: nat)
      ensures State() == Stream(startNumber, map[], false)
    {
      this.startNumber := startNumber;
      cache := map[];
      delayed := false;
    }

    method TryBackoff(env: Env<T>) returns (r: PollNext<T>)
      modifies this
      ensures (State(), r) == BackedOff(old(State()), env)
    {
      if env.backoffGranted {
        delayed := true;
        r := Pending;
      } else {
        r := Failed;
      }
    }

    method Next(env: Env<T>) returns (r: PollNext<T>)
      modifies this
      ensures (State(), r) == Polled(old(State()), env)
    {
      if startNumber in cache {
        r := Item(cache[startNumber]);
        cache := cache - {startNumber};
        startNumber := startNumber + 1;
        return;
      }
      if delayed && !env.delayOver {
        return Pending;
      }
      if cache != map[] {
        return Panic;
      }
      match env.answer
      case QueryPending => r := Pending;
      case QueryFailed => r := TryBackoff(env);
      case Data(data) =>
        if data == map[] {
          r := TryBackoff(env);
        } else if startNumber !in data {
          r := Panic;
        } else {
          r := Item(data[startNumber]);
          cache := data - {startNumber};
          startNumber := startNumber + 1;
        }
    }
  }

  // ----- runs

  ghost predicate IsRun<T(!new)>(source: nat -> T, first: nat, streams: seq<Stream<T>>, envs: seq<Env<T>>, results: seq<PollNext<T>>) {
    && |streams| == |envs| + 1 && |results| == |envs|
    && streams[0] == Stream(first, map[], false)
    && (forall i :: 0 <= i < |envs| ==> (streams[i + 1], results[i]) == Polled(streams[i], envs[i]))
    && (forall i :: 0 <= i < |envs| ==> Trusted(envs[i], streams[i].startNumber, source))
  }

  /** The items yielded by the first `k` polls. */
  function ItemsBy<T>(results: seq<PollNext<T>>, k: nat): seq<T>
    requires k <= |results|
  {
    if k == 0 then [] else ItemsBy(results, k - 1) + if results[k - 1].Item? then [results[k - 1].value] else []
  }

  /** The first item of a block is yielded, the rest is a block. */
  lemma BlockYields<T(!new)>(data: map<nat, T>, start: nat, source: nat -> T)
    requires IsBlock(data, start, source)
    ensures data != map[] <==> start in data
    ensures start in data ==> data[start] == source(start) && IsBlock(data - {start}, start + 1, source)
  {
    var n: nat :| IsBlockOf(data, start, n, source);
    if n == 0 {
      assert data == map[];
    } else {
      assert start in data;
      assert IsBlockOf(data - {start}, start + 1, n - 1, source);
    }
  }

  /** The poll asks for the next block: nothing is cached, and no delay is left to wait for. */
  predicate Asks<T>(s: Stream<T>, env: Env<T>) { s.cache.Keys == {} && (!s.delayed || env.delayOver) }

  predicate IsEmptyHanded<T>(env: Env<T>) { env.answer.QueryFailed? || (env.answer.Data? && env.answer.data.Keys == {}) }

  /** One poll from a block in the cache: the item at the next number if there is one to be had, cached or fetched; an error
      exactly when the query came back empty-handed and no further delay is granted; else nothing, and the number stays. */
  lemma PollYields<T(!new)>(s: Stream<T>, env: Env<T>, source: nat -> T)
    requires IsBlock(s.cache, s.startNumber, source) && Trusted(env, s.startNumber, source)
    ensures var (s', r) := Polled(s, env);
            && IsBlock(s'.cache, s'.startNumber, source) && !r.Panic?
            && if r.Item? then s'.startNumber == s.startNumber + 1 && r.value == source(s.startNumber)
               else s'.startNumber == s.startNumber && s'.cache == s.cache
    ensures Polled(s, env).1.Item? <==> s.cache != map[] || (Asks(s, env) && env.answer.Data? && env.answer.data != map[])
    ensures Polled(s, env).1.Failed? <==> Asks(s, env) && IsEmptyHanded(env) && !env.backoffGranted
    ensures Polled(s, env).0.delayed <==> s.delayed || (Asks(s, env) && IsEmptyHanded(env) && env.backoffGranted)
  {
    hide IsBlock;
    BlockYields(s.cache, s.startNumber, source);
    assert s.cache == map[] <==> s.cache.Keys == {};
    if env.answer.Data? {
      assert env.answer.data == map[] <==> env.answer.data.Keys == {};
      BlockYields(env.answer.data, s.startNumber, source);
    }
  }

  /** Over any mix of errors, empty answers and pending polls: the cache is the consecutive block at the next number,
      nothing declared unreachable is reached, and the items are those of the source from `first` on, without gap or
      repeat. */
  lemma {:induction false} NoGapNoRepeat<T(!new)>(source: nat -> T, first: nat, streams: seq<Stream<T>>, envs: seq<Env<T>>,
                                                  results: seq<PollNext<T>>, k: nat)
    requires IsRun(source, first, streams, envs, results) && k <= |envs|
    ensures IsBlock(streams[k].cache, streams[k].startNumber, source)
    ensures streams[k].startNumber == first + |ItemsBy(results, k)|
    ensures forall i :: 0 <= i < |ItemsBy(results, k)| ==> ItemsBy(results, k)[i] == source(first + i)
    ensures forall i :: 0 <= i < k ==> !results[i].Panic?
    decreases k
  {
    hide Polled, Trusted;
    if k == 0 {
      assert IsBlockOf(streams[0].cache, first, 0, source);
    } else {
      hide IsBlock;
      NoGapNoRepeat(source, first, streams, envs, results, k - 1);
      assert (streams[k - 1 + 1], results[k - 1]) == Polled(streams[k - 1], envs[k - 1]);
      PollYields(streams[k - 1], envs[k - 1], source);
    }
  }

  /** From a block in the cache, a poll panics if and only if the query is asked and answers with data that lack the
      number asked for. */
  lemma PanicsWithout<T(!new)>(s: Stream<T>, env: Env<T>, source: nat -> T)
    requires IsBlock(s.cache, s.startNumber, source)
    ensures Polled(s, env).1.Panic? <==>
            && s.cache == map[] && (!s.delayed || env.delayOver)
            && env.answer.Data? && env.answer.data != map[] && s.startNumber !in env.answer.data
  {
    BlockYields(s.cache, s.startNumber, source);
  }
}
