/** How the latest ledger info is found among a channel's rows: rows are kept under the epoch as eight bytes, and the last
    row of the channel is sought. */
module LedgerRows {
  import opened Basics
  import opened KeyRange
  import opened ChannelDb
  import opened ChannelIterator
  import L = ChannelLedger

  const EPOCH_LENGTH: nat := 8

  /** `x` as `n` bytes, the highest first. */
  function BigEndian(n: nat, x: nat): (r: Key)
    ensures |r| == n
  {
    if n == 0 then [] else BigEndian(n - 1, x / 256) + [x % 256]
  }

  function Values(n: nat): nat { if n == 0 then 1 else 256 * Values(n - 1) }

  /** The order of the bytes is the order of the numbers. */
  lemma {:induction false} BytesInOrder(n: nat, x: nat, y: nat)
    requires x < Values(n) && y < Values(n) && x < y
    ensures Less(BigEndian(n, x), BigEndian(n, y))
    decreases n
  {
    if n > 0 {
      var p, q := BigEndian(n - 1, x / 256), BigEndian(n - 1, y / 256);
      if x / 256 < y / 256 {
        BytesInOrder(n - 1, x / 256, y / 256);
        LessIsStrict(p);
        LessByPrefix(p, [x % 256], q, [y % 256]);
      } else {
        LessAfterPrefix(p, [x % 256], [y % 256]);
      }
    }
  }

  /** The channel's rows in this column family are the encoded ledger infos, and every row there has an epoch for a key. */
  ghost predicate StoredAs(rows: Rows, home: Address, infos: map<nat, L.LedgerInfo>, encode: L.LedgerInfo -> Value) {
    && (forall r :: r in rows ==> |r| == ADDRESS_LENGTH + EPOCH_LENGTH)
    && (forall e :: e in infos ==> IsRow(rows, home, e, encode(infos[e])))
    && (forall k :: k in View(rows, home) ==> exists e :: e in infos && k == BigEndian(EPOCH_LENGTH, e))
  }

  ghost predicate IsRow(rows: Rows, home: Address, e: nat, v: Value) {
    var k := BigEndian(EPOCH_LENGTH, e);
    e < Values(EPOCH_LENGTH) && k in View(rows, home) && View(rows, home)[k] == v
  }

  /** An epoch is beyond the single byte 0. */
  lemma EpochIsLong(k: Key)
    requires |k| == EPOCH_LENGTH
    ensures !AtMost(k, [0])
  {
    if k[0] == 0 {
      assert Less([0][1..], k[1..]);
    }
  }

  lemma AllFullFindsNothing(keys: seq<Key>, rows: Rows, home: Address, infos: map<nat, L.LedgerInfo>, encode: L.LedgerInfo -> Value)
    requires Lists(keys, rows) && StoredAs(rows, home, infos, encode) && (AllFull(home) || infos == map[])
    ensures !IsInside(keys, SeekPrevIndex(keys, NextPrefix(home)), home)
  {
    var pos := SeekPrevIndex(keys, NextPrefix(home));
    if IsInside(keys, pos, home) {
      var l := keys[pos][ADDRESS_LENGTH..];
      assert keys[pos] == home + l;
      ViewAt(rows, home, l);
      var e :| e in infos && l == BigEndian(EPOCH_LENGTH, e);
      LessAfterPrefix(home, [0], l);
      EpochIsLong(l);
    }
  }

  lemma OrdinaryFindsLast(keys: seq<Key>, rows: Rows, home: Address, infos: map<nat, L.LedgerInfo>, encode: L.LedgerInfo -> Value)
    requires Lists(keys, rows) && StoredAs(rows, home, infos, encode) && !AllFull(home) && infos != map[]
    ensures var pos := SeekPrevIndex(keys, NextPrefix(home));
            IsInside(keys, pos, home) && keys[pos][ADDRESS_LENGTH..] == BigEndian(EPOCH_LENGTH, L.LastKey(infos.Keys))
  {
    hide View, BigEndian, Values, Less, Incremented, SeekPrevIndex;
    var last := L.LastKey(infos.Keys);
    var k := BigEndian(EPOCH_LENGTH, last);
    assert IsRow(rows, home, last, encode(infos[last]));
    var pos := SeekPrevIndex(keys, NextPrefix(home));
    assert NextPrefix(home) !in rows;
    LastOfOrdinary(keys, rows, home, k);
    var l := keys[pos][ADDRESS_LENGTH..];
    assert keys[pos] == home + l;
    ViewAt(rows, home, l);
    var e :| e in infos && l == BigEndian(EPOCH_LENGTH, e);
    assert IsRow(rows, home, e, encode(infos[e]));
    LessAfterPrefix(home, l, k);
    if e < last {
      BytesInOrder(EPOCH_LENGTH, e, last);
    }
  }

  /** Start-up reads the info of the greatest epoch, if and only if the address is not the last of all. */
  method ReadLatest(keys: seq<Key>, rows: Rows, home: Address, ghost infos: map<nat, L.LedgerInfo>,
                    ghost encode: L.LedgerInfo -> Value) returns (r: Option<Value>)
    requires Lists(keys, rows) && StoredAs(rows, home, infos, encode)
    ensures r == if infos == map[] || AllFull(home) then None else Some(encode(infos[L.LastKey(infos.Keys)]))
  {
    var iter := new ChannelSchemaIterator(keys, rows, home);
    var _ := iter.SeekToLast();
    if infos == map[] || AllFull(home) {
      AllFullFindsNothing(keys, rows, home, infos, encode);
    } else {
      OrdinaryFindsLast(keys, rows, home, infos, encode);
      assert IsRow(rows, home, L.LastKey(infos.Keys), encode(infos[L.LastKey(infos.Keys)]));
    }
    var row := iter.Next();
    r := if row.Some? then Some(row.value.1) else None;
  }
}
