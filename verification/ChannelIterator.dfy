/** Iteration over one channel's rows in the shared ordered store. */
module ChannelIterator {
  import opened KeyRange
  import opened ChannelDb
  import opened Basics

  /** Strictly increasing. */
  predicate Sorted(keys: seq<Key>) { forall i, j :: 0 <= i < j < |keys| ==> Less(keys[i], keys[j]) }

  // ----- the store's own iterator

  /** Where the first key at or after `k` is. */
  function SeekIndex(keys: seq<Key>, k: Key): (r: nat)
    requires Sorted(keys)
    ensures r <= |keys|
    ensures forall i :: 0 <= i < r ==> Less(keys[i], k)
    ensures r < |keys| ==> AtMost(k, keys[r])
    decreases |keys|
  {
    if keys == [] || AtMost(k, keys[0]) then 0 else 1 + SeekIndex(keys[1..], k)
  }

  /** Where the last key at or before `k` is; -1 if there is none. */
  function SeekPrevIndex(keys: seq<Key>, k: Key): (r: int)
    requires Sorted(keys)
    ensures -1 <= r < |keys|
    ensures r >= 0 ==> AtMost(keys[r], k)
    ensures forall i :: r < i < |keys| ==> Less(k, keys[i])
    decreases |keys|
  {
    if keys == [] then -1
    else if AtMost(keys[|keys| - 1], k) then |keys| - 1
    else SeekPrevIndex(keys[..|keys| - 1], k)
  }

  // ----- order facts

  lemma AtMostIsTransitive(a: Key, b: Key, c: Key)
    requires AtMost(a, b) && AtMost(b, c)
    ensures AtMost(a, c)
  {
    LessIsTotal(a, b);
    LessIsTotal(b, c);
    if Less(a, b) && Less(b, c) {
      LessIsTransitive(a, b, c);
      LessIsAntisymmetric(a, c);
    }
  }

  lemma LessIsAntisymmetric(a: Key, b: Key)
    requires Less(a, b)
    ensures !Less(b, a)
  {
    if Less(b, a) {
      LessIsTransitive(a, b, a);
      LessIsStrict(a);
    }
  }

  lemma PrefixIsFirst(a: Key, k: Key)
    ensures AtMost(a, a + k)
  {
    LessAfterPrefix(a, k, []);
    assert a + [] == a;
  }

  /** What lies between two rows of a channel belongs to the channel. */
  lemma BetweenIsInside(a: Address, x: Key, k: Key)
    requires AtMost(a, x) && AtMost(x, a + k) && |x| >= ADDRESS_LENGTH
    ensures StartsWith(x, a)
  {
    var q: Address, y := x[..ADDRESS_LENGTH], x[ADDRESS_LENGTH..];
    assert x == q + y && a + [] == a;
    if q != a {
      LessByPrefix(q, y, a, []);
      LessByPrefix(a, k, q, y);
      LessIsTotal(q, a);
    }
  }

  // ----- what an iterator still has to yield

  predicate IsInside(keys: seq<Key>, pos: int, a: Address) { 0 <= pos < |keys| && StartsWith(keys[pos], a) }

  /** The keys of the channel from `pos` on, up to the first key of another channel. */
  function Rest(keys: seq<Key>, pos: int, a: Address): seq<Key>
    decreases |keys| - pos
  {
    if IsInside(keys, pos, a) then [keys[pos][ADDRESS_LENGTH..]] + Rest(keys, pos + 1, a) else []
  }

  /** The keys of a store, in order. */
  ghost predicate Lists(keys: seq<Key>, rows: Rows) {
    && Sorted(keys)
    && (forall i :: 0 <= i < |keys| ==> keys[i] in rows && |keys[i]| >= ADDRESS_LENGTH)
    && (forall r :: r in rows ==> r in keys)
  }

  lemma {:induction false} RestAt(keys: seq<Key>, pos: int, a: Address, i: nat)
    requires i < |Rest(keys, pos, a)|
    ensures 0 <= pos && pos + i < |keys| && keys[pos + i] == a + Rest(keys, pos, a)[i]
    decreases i
  {
    if i == 0 {
      assert keys[pos] == a + keys[pos][ADDRESS_LENGTH..];
    } else {
      RestAt(keys, pos + 1, a, i - 1);
    }
  }

  lemma RestIsSorted(keys: seq<Key>, pos: int, a: Address)
    requires Sorted(keys)
    ensures Sorted(Rest(keys, pos, a))
  {
    var rest := Rest(keys, pos, a);
    forall i, j | 0 <= i < j < |rest| ensures Less(rest[i], rest[j]) {
      RestAt(keys, pos, a, i);
      RestAt(keys, pos, a, j);
      LessAfterPrefix(a, rest[i], rest[j]);
    }
  }

  /** Everything of the channel up to position `j` is still to be yielded. */
  lemma {:induction false} RestReaches(keys: seq<Key>, pos: int, a: Address, j: int, l: Key)
    requires 0 <= pos <= j < |keys| && forall i :: pos <= i <= j ==> StartsWith(keys[i], a)
    requires keys[j] == a + l
    ensures l in Rest(keys, pos, a)
    decreases j - pos
  {
    if pos < j {
      RestReaches(keys, pos + 1, a, j, l);
    } else {
      assert keys[pos][ADDRESS_LENGTH..] == l;
    }
  }

  /** What is ahead after seeking `k` is a key of the channel at or after `k`. */
  lemma AheadIsSought(keys: seq<Key>, rows: Rows, a: Address, k: Key, l: Key)
    requires Lists(keys, rows) && l in Rest(keys, SeekIndex(keys, a + k), a)
    ensures a + l in rows && AtMost(k, l)
  {
    hide Less, SeekIndex, Rest;
    var pos := SeekIndex(keys, a + k);
    var i :| 0 <= i < |Rest(keys, pos, a)| && Rest(keys, pos, a)[i] == l;
    RestAt(keys, pos, a, i);
    AtMostLater(keys, pos, pos + i, a + k);
    LessAfterPrefix(a, l, k);
  }

  /** Everything from the sought position up to a key of the channel belongs to the channel. */
  lemma BlockIsInside(keys: seq<Key>, rows: Rows, a: Address, k: Key, l: Key, j: nat, i: nat)
    requires Lists(keys, rows) && SeekIndex(keys, a + k) <= i <= j < |keys| && keys[j] == a + l
    ensures StartsWith(keys[i], a)
  {
    hide Less, SeekIndex, StartsWith;
    AtMostLater(keys, SeekIndex(keys, a + k), i, a + k);
    PrefixIsFirst(a, k);
    AtMostIsTransitive(a, a + k, keys[i]);
    EarlierIsAtMost(keys, i, j);
    BetweenIsInside(a, keys[i], l);
  }

  /** A key of the channel at or after `k` is ahead after seeking `k`. */
  lemma SoughtIsAhead(keys: seq<Key>, rows: Rows, a: Address, k: Key, l: Key)
    requires Lists(keys, rows) && a + l in rows && AtMost(k, l)
    ensures l in Rest(keys, SeekIndex(keys, a + k), a)
  {
    hide Less, SeekIndex, Rest;
    var pos := SeekIndex(keys, a + k);
    LessAfterPrefix(a, l, k);
    var j :| 0 <= j < |keys| && keys[j] == a + l;
    assert j >= pos;
    forall i | pos <= i <= j ensures StartsWith(keys[i], a) {
      BlockIsInside(keys, rows, a, k, l, j, i);
    }
    RestReaches(keys, pos, a, j, l);
  }

  /** Seeking `k` leaves exactly the channel's keys at or after `k`. */
  lemma SeekLeaves(keys: seq<Key>, rows: Rows, a: Address, k: Key, l: Key)
    requires Lists(keys, rows)
    ensures l in Rest(keys, SeekIndex(keys, a + k), a) <==> l in View(rows, a) && AtMost(k, l)
  {
    hide Less, SeekIndex, Rest, View;
    ViewAt(rows, a, l);
    if l in Rest(keys, SeekIndex(keys, a + k), a) {
      AheadIsSought(keys, rows, a, k, l);
    }
    if a + l in rows && AtMost(k, l) {
      SoughtIsAhead(keys, rows, a, k, l);
    }
  }

  lemma EarlierIsAtMost(keys: seq<Key>, i: nat, j: nat)
    requires Sorted(keys) && i <= j < |keys|
    ensures AtMost(keys[i], keys[j])
  {
    if i < j {
      LessIsAntisymmetric(keys[i], keys[j]);
    } else {
      LessIsStrict(keys[i]);
    }
  }

  lemma AtMostLater(keys: seq<Key>, pos: nat, i: nat, k: Key)
    requires Sorted(keys) && pos <= i < |keys| && AtMost(k, keys[pos])
    ensures AtMost(k, keys[i])
  {
    EarlierIsAtMost(keys, pos, i);
    AtMostIsTransitive(k, keys[pos], keys[i]);
  }

  // ----- seeking backwards

  lemma AtOrBefore(keys: seq<Key>, k: Key, j: nat)
    requires Sorted(keys) && j < |keys| && AtMost(keys[j], k)
    ensures j <= SeekPrevIndex(keys, k) && AtMost(keys[j], keys[SeekPrevIndex(keys, k)])
  {
    EarlierIsAtMost(keys, j, SeekPrevIndex(keys, k));
  }

  /** The key the iterator stands at is the greatest of the channel's keys that are at most `k`. */
  ghost predicate StandsAtLast(keys: seq<Key>, rows: Rows, pos: int, a: Address, k: Key) {
    && IsInside(keys, pos, a)
    && AtMost(keys[pos][ADDRESS_LENGTH..], k)
    && forall l :: l in View(rows, a) && AtMost(l, k) ==> AtMost(l, keys[pos][ADDRESS_LENGTH..])
  }

  lemma {:induction false} SeekPrevBound(keys: seq<Key>, rows: Rows, a: Address, k: Key, l: Key)
    requires Lists(keys, rows) && l in View(rows, a) && AtMost(l, k)
    ensures IsInside(keys, SeekPrevIndex(keys, a + k), a)
    ensures AtMost(l, keys[SeekPrevIndex(keys, a + k)][ADDRESS_LENGTH..])
  {
    var pos := SeekPrevIndex(keys, a + k);
    ViewAt(rows, a, l);
    var j :| 0 <= j < |keys| && keys[j] == a + l;
    LessAfterPrefix(a, k, l);
    AtOrBefore(keys, a + k, j);
    PrefixIsFirst(a, l);
    AtMostIsTransitive(a, a + l, keys[pos]);
    BetweenIsInside(a, keys[pos], k);
    var m := keys[pos][ADDRESS_LENGTH..];
    assert keys[pos] == a + m;
    LessAfterPrefix(a, m, l);
  }

  /** Seeking backwards from `k` succeeds exactly when the channel has a key at most `k`, and stands at the greatest. */
  lemma {:induction false} SeekPrevFinds(keys: seq<Key>, rows: Rows, a: Address, k: Key)
    requires Lists(keys, rows)
    ensures var pos := SeekPrevIndex(keys, a + k);
            && (IsInside(keys, pos, a) <==> exists l :: l in View(rows, a) && AtMost(l, k))
            && (IsInside(keys, pos, a) ==> StandsAtLast(keys, rows, pos, a, k))
  {
    hide View;
    var pos := SeekPrevIndex(keys, a + k);
    forall l | l in View(rows, a) && AtMost(l, k)
      ensures IsInside(keys, pos, a) && AtMost(l, keys[pos][ADDRESS_LENGTH..])
    {
      SeekPrevBound(keys, rows, a, k, l);
    }
    if IsInside(keys, pos, a) {
      var m := keys[pos][ADDRESS_LENGTH..];
      assert keys[pos] == a + m;
      ViewAt(rows, a, m);
      LessAfterPrefix(a, k, m);
    }
  }

  /** The iterator stands at the last row of the channel. */
  ghost predicate IsLast(keys: seq<Key>, rows: Rows, pos: int, a: Address) {
    IsInside(keys, pos, a) && forall l :: l in View(rows, a) ==> AtMost(a + l, keys[pos])
  }

  /** What seeking the last row needs: nothing is stored right at the next address; and for the last address of all,
      which has no next one, no row beyond the key 0. */
  ghost predicate LastIsReachable(rows: Rows, a: Address) {
    if AllFull(a) then forall l :: l in View(rows, a) ==> AtMost(l, [0]) else NextPrefix(a) !in rows
  }

  lemma {:induction false} NextIsLater(a: Key)
    requires !AllFull(a)
    ensures Less(a, NextPrefix(a))
    decreases |a|
  {
    if !AllFull(a[1..]) {
      NextIsLater(a[1..]);
    }
  }

  /** Everything of the channel lies before its next address. */
  lemma InsideIsBelow(a: Address, l: Key)
    requires !AllFull(a)
    ensures Less(a + l, NextPrefix(a))
  {
    LongKeysInRange(a, a + l);
  }

  lemma LastOfOrdinary(keys: seq<Key>, rows: Rows, a: Address, m: Key)
    requires Lists(keys, rows) && m in View(rows, a) && !AllFull(a)
    ensures IsLast(keys, rows, SeekPrevIndex(keys, NextPrefix(a)), a) <==> NextPrefix(a) !in rows
  {
    hide View;
    var next := NextPrefix(a);
    var pos := SeekPrevIndex(keys, next);
    LessIsStrict(next);
    forall l | l in View(rows, a) ensures pos >= 0 && AtMost(a + l, keys[pos]) {
      ViewAt(rows, a, l);
      var j :| 0 <= j < |keys| && keys[j] == a + l;
      InsideIsBelow(a, l);
      LessIsAntisymmetric(a + l, next);
      AtOrBefore(keys, next, j);
    }
    if next in rows {
      var j :| 0 <= j < |keys| && keys[j] == next;
      AtOrBefore(keys, next, j);
      LessIsTotal(keys[pos], next);
      NextIsLater(a);
      LessIsStrict(a);
      assert StartsWith(next, a) ==> next == a;
    } else {
      LessIsTotal(keys[pos], next);
      PrefixIsFirst(a, m);
      AtMostIsTransitive(a, a + m, keys[pos]);
      LongKeysInRange(a, keys[pos]);
    }
  }

  lemma LastOfFull(keys: seq<Key>, rows: Rows, a: Address, m: Key)
    requires Lists(keys, rows) && m in View(rows, a) && AllFull(a)
    ensures IsLast(keys, rows, SeekPrevIndex(keys, a + [0]), a) <==> forall l :: l in View(rows, a) ==> AtMost(l, [0])
  {
    hide View;
    var pos := SeekPrevIndex(keys, a + [0]);
    if IsLast(keys, rows, pos, a) {
      forall l | l in View(rows, a) ensures AtMost(l, [0]) {
        AtMostIsTransitive(a + l, keys[pos], a + [0]);
        LessAfterPrefix(a, [0], l);
      }
    }
    if forall l :: l in View(rows, a) ==> AtMost(l, [0]) {
      forall l | l in View(rows, a) ensures IsInside(keys, pos, a) && AtMost(a + l, keys[pos]) {
        SeekPrevBound(keys, rows, a, [0], l);
        assert keys[pos] == a + keys[pos][ADDRESS_LENGTH..];
        LessAfterPrefix(a, keys[pos][ADDRESS_LENGTH..], l);
      }
      assert m in View(rows, a);
    }
  }

  /** Seeking the last row of a non-empty channel stands at its last row if and only if that is reachable. */
  lemma SeekLastCondition(keys: seq<Key>, rows: Rows, a: Address)
    requires Lists(keys, rows) && View(rows, a) != map[]
    ensures IsLast(keys, rows, SeekPrevIndex(keys, NextPrefix(a)), a) <==> LastIsReachable(rows, a)
  {
    var m :| m in View(rows, a);
    if AllFull(a) {
      LastOfFull(keys, rows, a, m);
    } else {
      LastOfOrdinary(keys, rows, a, m);
    }
  }

  /** The last row is missed for the last address of all, and when the next channel has a row with an empty key. */
  lemma MissedLastRows(a: Address, b: Address, v: Value)
    requires AllFull(a) && !AllFull(b)
    ensures Lists([a + [1]], map[a + [1] := v]) && !IsLast([a + [1]], map[a + [1] := v], SeekPrevIndex([a + [1]], NextPrefix(a)), a)
    ensures Lists([b, NextPrefix(b)], map[b := v, NextPrefix(b) := v])
    ensures !IsLast([b, NextPrefix(b)], map[b := v, NextPrefix(b) := v], SeekPrevIndex([b, NextPrefix(b)], NextPrefix(b)), b)
  {
    LessAfterPrefix(a, [0], [1]);
    NextIsLater(b);
    var next := NextPrefix(b);
    LessIsStrict(next);
    LessIsStrict(b);
    assert StartsWith(next, b) ==> next == b;
  }

  // ----- the iterator

  class ChannelSchemaIterator {
    const keys: seq<Key>
    const rows: Rows
    const participant: Address
    var pos: int

    ghost predicate Valid()
      reads this
    {
      Lists(keys, rows)
    }

    /** The channel's keys still to come. */
    ghost function Remaining(): seq<Key>
      reads this
    {
      Rest(keys, pos, participant)
    }

    constructor (keys: seq<Key>, rows: Rows, participant: Address)
      requires Lists(keys, rows)
      ensures Valid() && this.participant == participant && this.rows == rows && this.keys == keys
      ensures Sorted(Remaining()) && forall l :: l in Remaining() <==> l in View(rows, participant)
    {
      this.keys := keys;
      this.rows := rows;
      this.participant := participant;
      this.pos := 0;
      new;
      var _ := SeekToFirst();
    }

    /** All rows of the channel, in order. */
    method SeekToFirst() returns (found: bool)
      requires Valid()
      modifies this
      ensures Valid() && Sorted(Remaining()) && forall l :: l in Remaining() <==> l in View(rows, participant)
      ensures found <==> pos < |keys|
    {
      pos := SeekIndex(keys, participant);
      found := pos < |keys|;
      assert participant + [] == participant;
      RestIsSorted(keys, pos, participant);
      forall l ensures l in Remaining() <==> l in View(rows, participant) {
        SeekLeaves(keys, rows, participant, [], l);
      }
    }

    /** The rows of the channel from `key` on, in order. */
    method Seek(key: Key) returns (found: bool)
      requires Valid()
      modifies this
      ensures Valid() && Sorted(Remaining())
      ensures forall l :: l in Remaining() <==> l in View(rows, participant) && AtMost(key, l)
      ensures found <==> Remaining() != []
    {
      pos := SeekIndex(keys, participant + key);
      found := pos < |keys| && StartsWith(keys[pos], participant);
      RestIsSorted(keys, pos, participant);
      forall l ensures l in Remaining() <==> l in View(rows, participant) && AtMost(key, l) {
        SeekLeaves(keys, rows, participant, key, l);
      }
    }

    method SeekForPrev(key: Key) returns (found: bool)
      requires Valid()
      modifies this
      ensures Valid()
      ensures found <==> exists l :: l in View(rows, participant) && AtMost(l, key)
      ensures found ==> StandsAtLast(keys, rows, pos, participant, key)
    {
      pos := SeekPrevIndex(keys, participant + key);
      found := pos >= 0 && StartsWith(keys[pos], participant);
      SeekPrevFinds(keys, rows, participant, key);
    }

    /** Answers whether any row of the store was found, not whether it is one of the channel. */
    method SeekToLast() returns (found: bool)
      requires Valid()
      modifies this
      ensures Valid()
      ensures pos == SeekPrevIndex(keys, NextPrefix(participant)) && (found <==> pos >= 0)
      ensures View(rows, participant) != map[] ==> (IsLast(keys, rows, pos, participant) <==> LastIsReachable(rows, participant))
    {
      var next := PrefixNext(participant);
      pos := SeekPrevIndex(keys, next);
      found := pos >= 0;
      if View(rows, participant) != map[] {
        SeekLastCondition(keys, rows, participant);
      }
    }

    /** The next row, if there is one left. */
    method Next() returns (r: Option<(Key, Value)>)
      requires Valid()
      modifies this
      ensures Valid()
      ensures old(Remaining()) == [] ==> r == None && Remaining() == []
      ensures old(Remaining()) != [] ==>
        && r.Some? && r.value.0 == old(Remaining())[0] && Remaining() == old(Remaining())[1..]
        && r.value.0 in View(rows, participant) && r.value.1 == View(rows, participant)[r.value.0]
    {
      if 0 <= pos < |keys| && StartsWith(keys[pos], participant) {
        var key := keys[pos][ADDRESS_LENGTH..];
        assert keys[pos] == participant + key;
        ViewAt(rows, participant, key);
        r := Some((key, rows[keys[pos]]));
        pos := pos + 1;
      } else {
        r := None;
      }
    }
  }
}
