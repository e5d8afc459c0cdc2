/** Byte keys in lexicographic order, and the smallest key after all keys with a given prefix. */
module KeyRange {
  type Byte = x: int | 0 <= x < 256
  type Key = seq<Byte>

  predicate Less(a: Key, b: Key)
    decreases |a|
  {
    b != [] && (a == [] || a[0] < b[0] || (a[0] == b[0] && Less(a[1..], b[1..])))
  }

  predicate AtMost(a: Key, b: Key) { !Less(b, a) }

  predicate StartsWith(key: Key, prefix: Key) { prefix <= key }

  // ----- a total order

  lemma {:induction false} LessIsStrict(a: Key)
    ensures !Less(a, a)
    decreases |a|
  {
    if a != [] {
      LessIsStrict(a[1..]);
    }
  }

  lemma {:induction false} LessIsTotal(a: Key, b: Key)
    ensures Less(a, b) || Less(b, a) || a == b
    decreases |a|
  {
    if a != [] && b != [] && a[0] == b[0] {
      LessIsTotal(a[1..], b[1..]);
      assert a == [a[0]] + a[1..] && b == [b[0]] + b[1..];
    }
  }

  lemma {:induction false} LessIsTransitive(a: Key, b: Key, c: Key)
    requires Less(a, b) && Less(b, c)
    ensures Less(a, c)
    decreases |a|
  {
    if a != [] && a[0] == b[0] == c[0] {
      LessIsTransitive(a[1..], b[1..], c[1..]);
    }
  }

  /** A common prefix does not count. */
  lemma {:induction false} LessAfterPrefix(p: Key, a: Key, b: Key)
    ensures Less(p + a, p + b) <==> Less(a, b)
    decreases |p|
  {
    if p == [] {
      assert p + a == a && p + b == b;
    } else {
      LessAfterPrefix(p[1..], a, b);
      assert (p + a)[1..] == p[1..] + a && (p + b)[1..] == p[1..] + b;
    }
  }

  /** Different prefixes of the same length decide. */
  lemma {:induction false} LessByPrefix(p: Key, a: Key, q: Key, b: Key)
    requires |p| == |q| && p != q
    ensures Less(p + a, q + b) <==> Less(p, q)
    decreases |p|
  {
    assert (p + a)[1..] == p[1..] + a && (q + b)[1..] == q[1..] + b;
    if p[0] == q[0] {
      assert p == [p[0]] + p[1..] && q == [q[0]] + q[1..];
      LessByPrefix(p[1..], a, q[1..], b);
    }
  }

  // ----- the next prefix

  predicate AllFull(data: Key) { forall i :: 0 <= i < |data| ==> data[i] == 255 }

  function Zeros(n: nat): Key { seq(n, _ => 0) }

  /** One more than `data` as a number, or `data` followed by a zero when it is all 255. */
  function NextPrefix(data: Key): (r: Key)
    ensures !AllFull(data) ==> |r| == |data|
  {
    if AllFull(data) then data + [0] else Incremented(data)
  }

  function Incremented(data: Key): (r: Key)
    requires !AllFull(data)
    ensures |r| == |data|
    decreases |data|
  {
    if AllFull(data[1..]) then [data[0] + 1] + Zeros(|data| - 1) else [data[0]] + Incremented(data[1..])
  }

  /** Where the carry stops. */
  lemma {:induction false} IncrementedAt(data: Key, i: nat)
    requires i < |data| && data[i] < 255 && AllFull(data[i + 1..])
    ensures !AllFull(data) && Incremented(data) == data[..i] + [data[i] + 1] + Zeros(|data| - 1 - i)
    decreases i
  {
    if i == 0 {
      assert data[..0] == [];
    } else {
      assert data[1..][i - 1] == data[i] && data[1..][i..] == data[i + 1..];
      IncrementedAt(data[1..], i - 1);
      assert !AllFull(data[1..]);
      assert data[..i] == [data[0]] + data[1..][..i - 1];
    }
  }

  method PrefixNext(data: Key) returns (buf: Key)
    ensures buf == NextPrefix(data)
  {
    buf := data;
    var notFull := false;
    var i := |data|;
    while i > 0 && !notFull
      invariant 0 <= i <= |data| == |buf|
      invariant notFull ==> i < |data| && data[i] < 255 && AllFull(data[i + 1..])
      invariant notFull ==> buf == data[..i] + [data[i] + 1] + Zeros(|data| - 1 - i)
      invariant !notFull ==> AllFull(data[i..]) && buf == data[..i] + Zeros(|data| - i)
      decreases if notFull then 0 else i + 1
    {
      i := i - 1;
      assert buf[i] == data[i];
      if buf[i] < 255 {
        buf := buf[i := buf[i] + 1];
        notFull := true;
      } else {
        buf := buf[i := 0];
        assert data[i..] == [255] + data[i + 1..];
      }
    }
    if !notFull {
      assert data[0..] == data;
      buf := data;
      buf := buf + [0];
    } else {
      IncrementedAt(data, i);
    }
  }

  // ----- keys with a prefix are a range

  /** From `prefix` up to but not including its next prefix. */
  predicate InRange(prefix: Key, key: Key) { AtMost(prefix, key) && Less(key, NextPrefix(prefix)) }

  lemma {:induction false} FullIsTop(prefix: Key, key: Key)
    requires AllFull(prefix)
    ensures AtMost(prefix, key) <==> StartsWith(key, prefix)
    decreases |prefix|
  {
    if prefix != [] && key != [] && key[0] == 255 {
      FullIsTop(prefix[1..], key[1..]);
      assert StartsWith(key, prefix) <==> StartsWith(key[1..], prefix[1..]) by {
        assert key == [key[0]] + key[1..] && prefix == [prefix[0]] + prefix[1..];
      }
    }
  }

  lemma {:induction false} BelowZeros(key: Key, n: nat)
    ensures Less(key, Zeros(n)) <==> |key| < n && key == Zeros(|key|)
    decreases |key|
  {
    if key != [] && n > 0 {
      BelowZeros(key[1..], n - 1);
      assert Zeros(n)[1..] == Zeros(n - 1);
      assert key == [key[0]] + key[1..] && Zeros(|key|) == [0] + Zeros(|key| - 1);
    }
  }

  /** A key shorter than the prefix that the range takes in too: the next prefix without some of its last zeros. */
  predicate IsShortened(prefix: Key, key: Key)
    requires !AllFull(prefix)
  {
    |key| < |prefix| && key == Incremented(prefix)[..|key|] && AtMost(prefix, key)
  }

  /** For a prefix that is not all 255, the keys in its range are those that start with it, and shortened ones. */
  lemma {:induction false} RangeIsPrefixed(prefix: Key, key: Key)
    requires !AllFull(prefix)
    ensures InRange(prefix, key) <==> StartsWith(key, prefix) || IsShortened(prefix, key)
    decreases |prefix|
  {
    if key == [] {
    } else {
      var p, k := prefix[1..], key[1..];
      assert prefix == [prefix[0]] + p && key == [key[0]] + k;
      assert key[0] == prefix[0] ==> (StartsWith(key, prefix) <==> StartsWith(k, p));
      if AllFull(p) {
        var next := Incremented(prefix);
        assert next[1..] == Zeros(|p|);
        FullIsTop(p, k);
        BelowZeros(k, |p|);
        if |key| < |prefix| {
          assert next[..|key|] == [prefix[0] + 1] + Zeros(|k|);
        }
      } else {
        assert Incremented(prefix)[1..] == Incremented(p);
        RangeIsPrefixed(p, k);
        if |key| < |prefix| {
          assert Incremented(prefix)[..|key|] == [prefix[0]] + Incremented(p)[..|k|];
        }
      }
    }
  }

  /** So a key at least as long as the prefix starts with it exactly when it lies in the range. */
  lemma LongKeysInRange(prefix: Key, key: Key)
    requires !AllFull(prefix) && |key| >= |prefix|
    ensures StartsWith(key, prefix) <==> InRange(prefix, key)
  {
    RangeIsPrefixed(prefix, key);
  }

  /** For a prefix that is all 255, only the prefix itself lies in the range. */
  lemma FullPrefixRange(prefix: Key, key: Key)
    requires AllFull(prefix)
    ensures InRange(prefix, key) <==> key == prefix
  {
    FullIsTop(prefix, key);
    if StartsWith(key, prefix) {
      var k := key[|prefix|..];
      assert key == prefix + k;
      LessAfterPrefix(prefix, k, [0]);
    }
  }

  /** Every key long enough that starts with the prefix is in range, and no other, unless the prefix is all 255. */
  lemma RangeCondition(prefix: Key)
    ensures (forall key: Key :: |key| >= |prefix| ==> (StartsWith(key, prefix) <==> InRange(prefix, key))) <==> !AllFull(prefix)
  {
    if AllFull(prefix) {
      var key := prefix + [0];
      FullPrefixRange(prefix, key);
      assert StartsWith(key, prefix) && |key| >= |prefix|;
    } else {
      forall key: Key | |key| >= |prefix| ensures StartsWith(key, prefix) <==> InRange(prefix, key) {
        LongKeysInRange(prefix, key);
      }
    }
  }
}
