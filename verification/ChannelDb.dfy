/** Many channels in one ordered store: every row key starts with the address of the channel's participant, and all
    addresses have the same length. */
module ChannelDb {
  import opened KeyRange
  import opened Basics

  const ADDRESS_LENGTH: nat

  type Address = a: Key | |a| == ADDRESS_LENGTH witness Zeros(ADDRESS_LENGTH)
  type Value = seq<Byte>
  type Rows = map<Key, Value>
  type Families = map<string, Rows>

  datatype WriteOp = Put(value: Value) | Deletion

  datatype BatchRow = BatchRow(family: string, key: Key, op: WriteOp)
  {
    predicate Names(f: string, k: Key) { family == f && key == k }
  }

  datatype Result<T> = Ok(value: T) | Err

  /** The rows of one channel, without the address. */
  ghost function View(rows: Rows, a: Address): Rows {
    map r | r in rows && StartsWith(r, a) && a + r[ADDRESS_LENGTH..] == r :: r[ADDRESS_LENGTH..] := rows[r]
  }

  lemma ViewAt(rows: Rows, a: Address, k: Key)
    ensures k in View(rows, a) <==> a + k in rows
    ensures k in View(rows, a) ==> View(rows, a)[k] == rows[a + k]
  {
    assert (a + k)[ADDRESS_LENGTH..] == k;
  }

  ghost function Views(families: Families, a: Address): Families { map f | f in families :: View(families[f], a) }

  lemma ViewsOfFamily(families: Families, f: string, rows: Rows, a: Address)
    requires f in families
    ensures Views(families[f := rows], a) == Views(families, a)[f := View(rows, a)]
  {
    hide View;
  }

  lemma SameKey(a: Address, k: Key, b: Address, l: Key)
    requires a + k == b + l
    ensures a == b && k == l
  {
    assert a == (a + k)[..ADDRESS_LENGTH] && b == (b + l)[..ADDRESS_LENGTH];
    assert k == (a + k)[ADDRESS_LENGTH..] && l == (b + l)[ADDRESS_LENGTH..];
  }

  function Written(rows: Rows, key: Key, op: WriteOp): Rows {
    match op
    case Put(value) => rows[key := value]
    case Deletion => rows - {key}
  }

  /** A write in one channel, seen from any channel. */
  lemma ViewOfWrite(rows: Rows, a: Address, key: Key, op: WriteOp, b: Address)
    ensures View(Written(rows, a + key, op), b) == if b == a then Written(View(rows, a), key, op) else View(rows, b)
  {
    hide View;
    var rows' := Written(rows, a + key, op);
    forall k: Key
      ensures b + k == a + key <==> b == a && k == key
      ensures k in View(rows', b) <==> b + k in rows'
      ensures k in View(rows', b) ==> View(rows', b)[k] == rows'[b + k]
      ensures k in View(rows, b) <==> b + k in rows
      ensures k in View(rows, b) ==> View(rows, b)[k] == rows[b + k]
    {
      ViewAt(rows, b, k);
      ViewAt(rows', b, k);
      if b + k == a + key {
        SameKey(b, k, a, key);
      }
    }
  }

  predicate IsBetween(begin: Key, end: Key, key: Key) { AtMost(begin, key) && Less(key, end) }

  function WithoutRange(rows: Rows, begin: Key, end: Key): Rows {
    map r | r in rows && !IsBetween(begin, end, r) :: rows[r]
  }

  /** A range deleted in one channel, seen from any channel. */
  lemma ViewOfRangeDelete(rows: Rows, a: Address, begin: Key, end: Key, b: Address)
    ensures View(WithoutRange(rows, a + begin, a + end), b)
         == if b == a then WithoutRange(View(rows, a), begin, end) else View(rows, b)
  {
    hide View;
    var rows' := WithoutRange(rows, a + begin, a + end);
    forall k: Key
      ensures IsBetween(a + begin, a + end, b + k) <==> b == a && IsBetween(begin, end, k)
      ensures k in View(rows', b) <==> b + k in rows'
      ensures k in View(rows', b) ==> View(rows', b)[k] == rows'[b + k]
      ensures k in View(rows, b) <==> b + k in rows
      ensures k in View(rows, b) ==> View(rows, b)[k] == rows[b + k]
    {
      ViewAt(rows, b, k);
      ViewAt(rows', b, k);
      if b == a {
        LessAfterPrefix(a, k, begin);
        LessAfterPrefix(a, k, end);
      } else {
        LessByPrefix(b, k, a, begin);
        LessByPrefix(b, k, a, end);
      }
    }
  }

  // ----- batches

  predicate KnownFamilies(families: Families, batch: seq<BatchRow>) {
    forall i :: 0 <= i < |batch| ==> batch[i].family in families
  }

  /** All rows of a batch, written one after the other. */
  function BatchWritten(families: Families, batch: seq<BatchRow>): (r: Families)
    requires KnownFamilies(families, batch)
    ensures r.Keys == families.Keys
    decreases |batch|
  {
    if batch == [] then families
    else
      var before := BatchWritten(families, batch[..|batch| - 1]);
      var last := batch[|batch| - 1];
      before[last.family := Written(before[last.family], last.key, last.op)]
  }

  /** The last row of the batch that names this key, if one does. */
  function LastRow(batch: seq<BatchRow>, f: string, k: Key): (r: Option<WriteOp>)
    ensures r.None? <==> forall i :: 0 <= i < |batch| ==> !batch[i].Names(f, k)
    ensures r.Some? ==> exists i :: IsLastRow(batch, f, k, i) && batch[i].op == r.value
    decreases |batch|
  {
    if batch == [] then None
    else
      var n := |batch| - 1;
      if batch[n].Names(f, k) then
        assert IsLastRow(batch, f, k, n);
        Some(batch[n].op)
      else
        var r := LastRow(batch[..n], f, k);
        assert forall i :: IsLastRow(batch[..n], f, k, i) ==> IsLastRow(batch, f, k, i) && batch[..n][i].op == batch[i].op;
        assert forall i :: 0 <= i < n ==> batch[..n][i] == batch[i];
        r
  }

  predicate IsLastRow(batch: seq<BatchRow>, f: string, k: Key, i: int) {
    0 <= i < |batch| && batch[i].Names(f, k) && forall j :: i < j < |batch| ==> !batch[j].Names(f, k)
  }

  /** What family `f` holds under key `k`. */
  function Lookup(families: Families, f: string, k: Key): Option<Value> {
    if f in families && k in families[f] then Some(families[f][k]) else None
  }

  /** After a batch every key has what the last row for it says, and what it had before if there is none. */
  lemma {:induction false} BatchLookup(families: Families, batch: seq<BatchRow>, f: string, k: Key)
    requires KnownFamilies(families, batch)
    ensures Lookup(BatchWritten(families, batch), f, k) ==
            match LastRow(batch, f, k)
            case None => Lookup(families, f, k)
            case Some(Put(value)) => Some(value)
            case Some(Deletion) => None
    decreases |batch|
  {
    if batch != [] {
      BatchLookup(families, batch[..|batch| - 1], f, k);
    }
  }

  function Prefixed(batch: seq<BatchRow>, a: Address): (r: seq<BatchRow>)
    ensures |r| == |batch|
  {
    seq(|batch|, i requires 0 <= i < |batch| => batch[i].(key := a + batch[i].key))
  }

  /** One row of a batch written through channel `a`, seen from any channel. */
  lemma ViewsOfRow(families: Families, row: BatchRow, a: Address, b: Address)
    requires row.family in families
    ensures Views(families[row.family := Written(families[row.family], a + row.key, row.op)], b)
         == if b == a then Views(families, a)[row.family := Written(Views(families, a)[row.family], row.key, row.op)]
            else Views(families, b)
  {
    hide View, Written;
    ViewOfWrite(families[row.family], a, row.key, row.op, b);
    ViewsOfFamily(families, row.family, Written(families[row.family], a + row.key, row.op), b);
    if b != a {
      assert Views(families, b)[row.family := View(families[row.family], b)] == Views(families, b);
    }
  }

  /** A batch written through one channel is that batch on the view of this channel, and nothing on any other. */
  lemma {:induction false} ViewsOfBatch(families: Families, batch: seq<BatchRow>, a: Address, b: Address)
    requires KnownFamilies(families, batch)
    ensures KnownFamilies(families, Prefixed(batch, a)) && KnownFamilies(Views(families, a), batch)
    ensures Views(BatchWritten(families, Prefixed(batch, a)), b)
         == if b == a then BatchWritten(Views(families, a), batch) else Views(families, b)
    decreases |batch|
  {
    if batch != [] {
      var init, last := batch[..|batch| - 1], batch[|batch| - 1];
      ViewsOfBatch(families, init, a, b);
      assert Prefixed(batch, a)[..|batch| - 1] == Prefixed(init, a);
      hide Views, View, Written, Prefixed;
      ViewsOfRow(BatchWritten(families, Prefixed(init, a)), last, a, b);
    }
  }

  // ----- the store and its channels

  /** Rows are kept under an address. */
  ghost predicate Addressed(families: Families) {
    forall f, r :: f in families && r in families[f] ==> |r| >= ADDRESS_LENGTH
  }

  class SgStorage {
    var families: Families

    ghost predicate Valid()
      reads this
    {
      Addressed(families)
    }

    constructor (names: set<string>)
      ensures Valid() && families.Keys == names && forall f :: f in names ==> families[f] == map[]
    {
      families := map f | f in names :: map[];
    }
  }

  class ChannelDB {
    const inner: SgStorage
    const participant: Address

    constructor (participant: Address, inner: SgStorage)
      ensures this.participant == participant && this.inner == inner
    {
      this.participant := participant;
      this.inner := inner;
    }

    method Get(family: string, key: Key) returns (r: Result<Option<Value>>)
      ensures r.Ok? <==> family in inner.families
      ensures r.Ok? ==> var v := View(inner.families[family], participant);
                        r.value == if key in v then Some(v[key]) else None
    {
      var raw := participant + key;
      if family in inner.families {
        ViewAt(inner.families[family], participant, key);
      }
      if family !in inner.families {
        return Err;
      }
      if raw in inner.families[family] {
        r := Ok(Some(inner.families[family][raw]));
      } else {
        r := Ok(None);
      }
    }

    method Put(family: string, key: Key, value: Value) returns (r: Result<()>)
      requires inner.Valid()
      modifies inner
      ensures inner.Valid()
      ensures r.Ok? <==> family in old(inner.families)
      ensures r.Err? ==> inner.families == old(inner.families)
      ensures r.Ok? ==> Views(inner.families, participant) ==
                        var v := Views(old(inner.families), participant); v[family := v[family][key := value]]
      ensures forall b: Address :: b != participant ==> Views(inner.families, b) == Views(old(inner.families), b)
    {
      hide View;
      if family !in inner.families {
        return Err;
      }
      ghost var rows := inner.families[family];
      inner.families := inner.families[family := Written(inner.families[family], participant + key, WriteOp.Put(value))];
      forall b: Address {
        ViewOfWrite(rows, participant, key, WriteOp.Put(value), b);
      }
      ghost var after := Written(rows, participant + key, WriteOp.Put(value));
      forall b: Address ensures Views(inner.families, b) == Views(old(inner.families), b)[family := View(after, b)] {
        ViewsOfFamily(old(inner.families), family, after, b);
      }
      r := Ok(());
    }

    method RangeDelete(family: string, begin: Key, end: Key) returns (r: Result<()>)
      requires inner.Valid()
      modifies inner
      ensures inner.Valid()
      ensures r.Ok? <==> family in old(inner.families)
      ensures r.Err? ==> inner.families == old(inner.families)
      ensures r.Ok? ==> Views(inner.families, participant) ==
                        var v := Views(old(inner.families), participant); v[family := WithoutRange(v[family], begin, end)]
      ensures r.Ok? ==> forall k :: Lookup(Views(inner.families, participant), family, k) ==
                                    if Less(k, begin) || !Less(k, end) then Lookup(Views(old(inner.families), participant), family, k)
                                    else None
      ensures forall b: Address :: b != participant ==> Views(inner.families, b) == Views(old(inner.families), b)
    {
      hide View;
      if family !in inner.families {
        return Err;
      }
      ghost var rows := inner.families[family];
      inner.families := inner.families[family := WithoutRange(inner.families[family], participant + begin, participant + end)];
      forall b: Address {
        ViewOfRangeDelete(rows, participant, begin, end, b);
      }
      ghost var after := WithoutRange(rows, participant + begin, participant + end);
      forall b: Address ensures Views(inner.families, b) == Views(old(inner.families), b)[family := View(after, b)] {
        ViewsOfFamily(old(inner.families), family, after, b);
      }
      r := Ok(());
    }

    /** All rows or, when a family is unknown, none. */
    method WriteSchemas(batch: seq<BatchRow>) returns (r: Result<()>)
      requires inner.Valid()
      modifies inner
      ensures inner.Valid()
      ensures r.Ok? <==> KnownFamilies(old(inner.families), batch)
      ensures r.Err? ==> inner.families == old(inner.families)
      ensures r.Ok? ==> KnownFamilies(Views(old(inner.families), participant), batch)
      ensures r.Ok? ==> Views(inner.families, participant) == BatchWritten(Views(old(inner.families), participant), batch)
      ensures r.Ok? ==> forall f, k :: Lookup(Views(inner.families, participant), f, k) ==
                                       match LastRow(batch, f, k)
                                       case None => Lookup(Views(old(inner.families), participant), f, k)
                                       case Some(Put(value)) => Some(value)
                                       case Some(Deletion) => None
      ensures forall b: Address :: b != participant ==> Views(inner.families, b) == Views(old(inner.families), b)
    {
      var dbBatch: seq<BatchRow> := [];
      var i := 0;
      while i < |batch|
        invariant 0 <= i <= |batch| && dbBatch == Prefixed(batch[..i], participant)
        invariant KnownFamilies(inner.families, batch[..i])
      {
        if batch[i].family !in inner.families {
          return Err;
        }
        dbBatch := dbBatch + [batch[i].(key := participant + batch[i].key)];
        i := i + 1;
      }
      assert batch[..i] == batch;
      ghost var before := inner.families;
      inner.families := BatchWritten(inner.families, dbBatch);
      forall b: Address {
        ViewsOfBatch(before, batch, participant, b);
      }
      BatchIsAddressed(before, batch, participant);
      forall f, k {
        BatchLookup(Views(before, participant), batch, f, k);
      }
      r := Ok(());
    }
  }

  lemma RowIsAddressed(families: Families, row: BatchRow, a: Address)
    requires Addressed(families) && row.family in families
    ensures Addressed(families[row.family := Written(families[row.family], a + row.key, row.op)])
  {
  }

  lemma {:induction false} BatchIsAddressed(families: Families, batch: seq<BatchRow>, a: Address)
    requires Addressed(families) && KnownFamilies(families, batch) && KnownFamilies(families, Prefixed(batch, a))
    ensures Addressed(BatchWritten(families, Prefixed(batch, a)))
    decreases |batch|
  {
    if batch != [] {
      var init, last := batch[..|batch| - 1], batch[|batch| - 1];
      assert Prefixed(batch, a)[..|batch| - 1] == Prefixed(init, a);
      assert Prefixed(batch, a)[|batch| - 1] == last.(key := a + last.key);
      hide Addressed, Written, Prefixed;
      BatchIsAddressed(families, init, a);
      RowIsAddressed(BatchWritten(families, Prefixed(init, a)), last, a);
    }
  }
}
