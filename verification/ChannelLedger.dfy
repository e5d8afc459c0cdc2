/** The ledger of one channel: what is stored, what is cached in memory, and how the caches are rebuilt. */
module ChannelLedger {
  import opened Basics
  import C = ChannelDb
  import K = KeyRange

  type AccountAddress = nat
  type PublicKey = nat
  type Hash = nat
  type Signature = nat

  datatype TxnSignature = TxnSignature(publicKey: PublicKey, witnessSignature: Signature)

  datatype Txn =
    | Offchain(sequenceNumber: nat, signatures: seq<TxnSignature>)
    | Travel(sequenceNumber: nat, publicKeys: seq<PublicKey>)
  {
    function ParticipantKeys(): seq<PublicKey> {
      match this
      case Offchain(_, signatures) => seq(|signatures|, i requires 0 <= i < |signatures| => signatures[i].publicKey)
      case Travel(_, publicKeys) => publicKeys
    }
  }

  type WriteItem = nat
  type WriteSet = seq<WriteItem>
  type PendingTxn = nat

  datatype TxnToCommit = TxnToCommit(txn: Txn, writeSet: WriteSet, majorStatus: nat, gasUsed: nat)

  datatype TxnInfo = TxnInfo(txnHash: Hash, writeSetHash: Hash, majorStatus: nat, travel: bool, gasUsed: nat)

  datatype LedgerInfo = LedgerInfo(version: nat, root: Hash, epoch: nat, timestamp: nat)

  datatype Witness = Witness(sequenceNumber: nat, writeSet: WriteSet, signatures: seq<Signature>)

  /** The hash functions, of which nothing is assumed. */
  datatype Hasher = Hasher(
    ofTxn: Txn -> Hash,
    ofWriteSet: WriteSet -> Hash,
    ofInfo: TxnInfo -> Hash,
    ofLeaves: seq<Hash> -> Hash)

  /** A participant and the key it last signed with. */
  datatype KeyRow = KeyRow(address: AccountAddress, key: Option<PublicKey>)

  predicate Ordered(rows: seq<KeyRow>) { forall i, j :: 0 <= i < j < |rows| ==> rows[i].address < rows[j].address }

  /** A table ordered by address. */
  type KeyTable = rows: seq<KeyRow> | Ordered(rows) witness []

  predicate Increasing(addresses: seq<AccountAddress>) {
    forall i, j :: 0 <= i < j < |addresses| ==> addresses[i] < addresses[j]
  }

  type AddressSet = addresses: seq<AccountAddress> | Increasing(addresses) witness []

  /** Everything stored for the channel. */
  datatype Db = Db(
    keys: KeyTable,
    pending: Option<PendingTxn>,
    infos: map<nat, TxnInfo>,
    txns: map<nat, Txn>,
    writeItems: map<(nat, nat), WriteItem>,
    ledgerInfos: map<nat, LedgerInfo>,
    leaves: seq<Hash>)

  const EMPTY_DB := Db([], None, map[], map[], map[], map[], [])

  // ----- batches

  datatype Write =
    | PutKey(row: KeyRow)
    | PutPending(pending: PendingTxn)
    | DeletePending
    | PutInfo(version: nat, info: TxnInfo)
    | PutTxn(version: nat, txn: Txn)
    | PutItem(version: nat, index: nat, item: WriteItem)
    | PutLedgerInfo(ledgerInfo: LedgerInfo)
    | PutLeaf(version: nat, hash: Hash)

  /** A row put into a table, in its place. */
  function Upserted(rows: KeyTable, row: KeyRow): (r: KeyTable)
    ensures r != [] && r[0].address == if rows == [] || row.address < rows[0].address then row.address else rows[0].address
    decreases |rows|
  {
    if rows == [] || row.address < rows[0].address then [row] + rows
    else if row.address == rows[0].address then [row] + rows[1..]
    else [rows[0]] + Upserted(rows[1..], row)
  }

  function After(db: Db, w: Write): Db {
    match w
    case PutKey(row) => db.(keys := Upserted(db.keys, row))
    case PutPending(pending) => db.(pending := Some(pending))
    case DeletePending => db.(pending := None)
    case PutInfo(version, info) => db.(infos := db.infos[version := info])
    case PutTxn(version, txn) => db.(txns := db.txns[version := txn])
    case PutItem(version, index, item) => db.(writeItems := db.writeItems[(version, index) := item])
    case PutLedgerInfo(info) => db.(ledgerInfos := db.ledgerInfos[info.epoch := info])
    case PutLeaf(version, hash) => db.(leaves := db.leaves[..if version < |db.leaves| then version else |db.leaves|] + [hash])
  }

  function Committed(db: Db, batch: seq<Write>): Db
    decreases |batch|
  {
    if batch == [] then db else After(Committed(db, batch[..|batch| - 1]), batch[|batch| - 1])
  }

  lemma CommittedOne(db: Db, batch: seq<Write>, w: Write)
    ensures Committed(db, batch + [w]) == After(Committed(db, batch), w)
  {
    assert (batch + [w])[..|batch|] == batch;
  }

  lemma NothingCommitted(db: Db)
    ensures Committed(db, []) == db && UpsertedAll(db.keys, []) == db.keys
  {
  }

  // ----- participant keys

  /** The first rows take the new keys, in order; further rows and further keys are left out. */
  function Rekeyed(rows: KeyTable, newKeys: seq<PublicKey>): (r: KeyTable)
    ensures |r| == |rows|
  {
    seq(|rows|, i requires 0 <= i < |rows| => if i < |newKeys| then rows[i].(key := Some(newKeys[i])) else rows[i])
  }

  lemma {:induction false} UpsertedAt(rows: KeyTable, i: nat, row: KeyRow)
    requires i < |rows| && rows[i].address == row.address
    ensures Upserted(rows, row) == rows[i := row]
    decreases i
  {
    if i > 0 {
      assert rows[0].address < rows[i].address;
      UpsertedAt(rows[1..], i - 1, row);
      assert rows[i := row] == [rows[0]] + rows[1..][i - 1 := row];
    } else {
      assert rows[0 := row] == [row] + rows[1..];
    }
  }

  /** Rows put one after the other. */
  function UpsertedAll(rows: KeyTable, more: seq<KeyRow>): KeyTable {
    if more == [] then rows else Upserted(UpsertedAll(rows, more[..|more| - 1]), more[|more| - 1])
  }

  lemma UpsertedOne(rows: KeyTable, more: seq<KeyRow>, row: KeyRow)
    ensures UpsertedAll(rows, more + [row]) == Upserted(UpsertedAll(rows, more), row)
  {
    assert (more + [row])[..|more|] == more;
  }

  lemma RekeyedOne(rows: KeyTable, newKeys: seq<PublicKey>, i: nat)
    requires i < |rows| && i < |newKeys|
    ensures Rekeyed(rows, newKeys[..i + 1]) == Upserted(Rekeyed(rows, newKeys[..i]), rows[i].(key := Some(newKeys[i])))
    ensures rows[i].key == Some(newKeys[i]) ==> Rekeyed(rows, newKeys[..i + 1]) == Rekeyed(rows, newKeys[..i])
  {
    var done := Rekeyed(rows, newKeys[..i]);
    UpsertedAt(done, i, rows[i].(key := Some(newKeys[i])));
    assert Rekeyed(rows, newKeys[..i + 1]) == done[i := rows[i].(key := Some(newKeys[i]))];
  }

  // ----- tables with numbers for keys

  lemma {:induction false} EndsExist(keys: set<nat>)
    requires keys != {}
    ensures exists k :: IsFirst(keys, k)
    ensures exists k :: IsLast(keys, k)
    decreases keys
  {
    var x :| x in keys;
    var rest := keys - {x};
    assert forall j :: j in keys ==> j in rest || j == x;
    if rest == {} {
      assert IsFirst(keys, x) && IsLast(keys, x);
    } else {
      EndsExist(rest);
      var f :| IsFirst(rest, f);
      var l :| IsLast(rest, l);
      assert IsFirst(keys, if x < f then x else f);
      assert IsLast(keys, if x > l then x else l);
    }
  }

  predicate IsFirst(keys: set<nat>, k: nat) { k in keys && forall j :: j in keys ==> k <= j }

  predicate IsLast(keys: set<nat>, k: nat) { k in keys && forall j :: j in keys ==> j <= k }

  function FirstKey(keys: set<nat>): (k: nat)
    requires keys != {}
    ensures IsFirst(keys, k)
  {
    EndsExist(keys);
    var k :| IsFirst(keys, k);
    k
  }

  function LastKey(keys: set<nat>): (k: nat)
    requires keys != {}
    ensures IsLast(keys, k)
  {
    EndsExist(keys);
    var k :| IsLast(keys, k);
    k
  }

  // ----- write sets

  /** Where items of a version are stored. */
  function Indices(items: map<(nat, nat), WriteItem>, version: nat): set<nat> {
    set k | k in items.Keys && k.0 == version :: k.1
  }

  /** The items at `indices`, in their order. */
  function ItemsAt(items: map<(nat, nat), WriteItem>, version: nat, indices: set<nat>): WriteSet
    requires forall i :: i in indices ==> (version, i) in items
    decreases |indices|
  {
    if indices == {} then []
    else
      var i := FirstKey(indices);
      [items[(version, i)]] + ItemsAt(items, version, indices - {i})
  }

  lemma IndicesAre(items: map<(nat, nat), WriteItem>, version: nat, i: nat)
    ensures i in Indices(items, version) <==> (version, i) in items
  {
    if (version, i) in items {
      assert (version, i) in items.Keys;
    }
  }

  /** All items stored for a version. */
  function ItemsOf(items: map<(nat, nat), WriteItem>, version: nat): WriteSet {
    assert forall i: nat :: i in Indices(items, version) ==> (version, i) in items;
    ItemsAt(items, version, Indices(items, version))
  }

  function ItemsPut(items: map<(nat, nat), WriteItem>, version: nat, ws: WriteSet): map<(nat, nat), WriteItem> {
    if ws == [] then items else ItemsPut(items, version, ws[..|ws| - 1])[(version, |ws| - 1) := ws[|ws| - 1]]
  }

  lemma {:induction false} ItemsPutAt(items: map<(nat, nat), WriteItem>, version: nat, ws: WriteSet, v: nat, i: nat)
    ensures (v, i) in ItemsPut(items, version, ws) <==> (v, i) in items || (v == version && i < |ws|)
    ensures v == version && i < |ws| ==> ItemsPut(items, version, ws)[(v, i)] == ws[i]
    ensures (v != version || i >= |ws|) && (v, i) in items ==> ItemsPut(items, version, ws)[(v, i)] == items[(v, i)]
    decreases |ws|
  {
    if ws != [] {
      ItemsPutAt(items, version, ws[..|ws| - 1], v, i);
    }
  }

  lemma {:induction false} ItemsUpTo(items: map<(nat, nat), WriteItem>, version: nat, ws: WriteSet, index: nat, indices: set<nat>)
    requires index <= |ws| && forall i: nat :: i in indices <==> index <= i < |ws|
    requires forall i :: i in indices ==> (version, i) in items && items[(version, i)] == ws[i]
    ensures ItemsAt(items, version, indices) == ws[index..]
    decreases |ws| - index
  {
    if index < |ws| {
      assert index in indices && FirstKey(indices) == index;
      ItemsUpTo(items, version, ws, index + 1, indices - {index});
    } else {
      assert indices == {};
    }
  }

  /** What is put at a new version is what is read back. */
  lemma ItemsReadBack(items: map<(nat, nat), WriteItem>, version: nat, ws: WriteSet)
    requires forall i: nat :: (version, i) !in items
    ensures ItemsOf(ItemsPut(items, version, ws), version) == ws
  {
    var items' := ItemsPut(items, version, ws);
    forall i: nat
      ensures (version, i) in items' <==> i < |ws|
      ensures i < |ws| ==> items'[(version, i)] == ws[i]
      ensures i in Indices(items', version) <==> i < |ws|
    {
      ItemsPutAt(items, version, ws, version, i);
      IndicesAre(items', version, i);
    }
    ItemsUpTo(items', version, ws, 0, Indices(items', version));
    assert ws[0..] == ws;
  }

  // ----- the store

  datatype Store = Store(
    db: Db,
    latestWitness: Option<Witness>,
    pending: Option<PendingTxn>,
    keys: KeyTable,
    latest: Option<LedgerInfo>)

  function GenerateWitness(txn: Txn, ws: WriteSet): Witness {
    Witness(txn.sequenceNumber + 1, ws,
            match txn
            case Offchain(_, s) => seq(|s|, i requires 0 <= i < |s| => s[i].witnessSignature)
            case Travel(_, _) => [])
  }

  /** The ledger info of the greatest epoch, as seeking the last row of the channel at `home` finds it: module
      `LedgerRows` shows that nothing is found when the address is the last of all. */
  function LatestLedgerInfo(db: Db, home: C.Address): Option<LedgerInfo> {
    if db.ledgerInfos == map[] || K.AllFull(home) then None else Some(db.ledgerInfos[LastKey(db.ledgerInfos.Keys)])
  }

  /** The transaction of the latest ledger info is there; without it the store does not come up. */
  predicate Sound(db: Db, home: C.Address) {
    LatestLedgerInfo(db, home).Some? ==> LatestLedgerInfo(db, home).value.version in db.txns
  }

  /** The caches, rebuilt from what is stored. */
  function Loaded(db: Db, home: C.Address): Store
    requires Sound(db, home)
  {
    var latest := LatestLedgerInfo(db, home);
    var latestWitness := if latest.None? then None
                         else Some(GenerateWitness(db.txns[latest.value.version], ItemsOf(db.writeItems, latest.value.version)));
    Store(db, latestWitness, db.pending, db.keys, latest)
  }

  function NoKeys(participants: AddressSet): KeyTable {
    seq(|participants|, i requires 0 <= i < |participants| => KeyRow(participants[i], None))
  }

  /** Opening a store: a new one gets a row for each participant. */
  function Opened(db: Db, home: C.Address, participants: AddressSet): Store
    requires Sound(db, home)
  {
    var s := Loaded(db, home);
    if db.keys == [] then s.(db := db.(keys := NoKeys(participants)), keys := NoKeys(participants)) else s
  }

  /** The cached keys are the stored ones, at all times. */
  predicate Coherent(s: Store) { s.keys == s.db.keys }

  function InfoOf(h: Hasher, c: TxnToCommit): TxnInfo {
    TxnInfo(h.ofTxn(c.txn), h.ofWriteSet(c.writeSet), c.majorStatus, c.txn.Travel?, c.gasUsed)
  }

  function NewLeaves(h: Hasher, db: Db, c: TxnToCommit, version: nat): seq<Hash>
    requires version <= |db.leaves|
  {
    db.leaves[..version] + [h.ofInfo(InfoOf(h, c))]
  }

  /** The conditions under which a transaction is saved. */
  predicate Savable(h: Hasher, s: Store, c: TxnToCommit, version: nat, info: Option<LedgerInfo>) {
    && version <= |s.db.leaves|
    && (info.Some? ==> info.value.version == version && info.value.root == h.ofLeaves(NewLeaves(h, s.db, c, version)))
  }

  function SavedDb(h: Hasher, db: Db, c: TxnToCommit, version: nat, info: Option<LedgerInfo>, clearPending: bool): Db
    requires version <= |db.leaves|
  {
    Db(Rekeyed(db.keys, c.txn.ParticipantKeys()),
       if clearPending then None else db.pending,
       db.infos[version := InfoOf(h, c)],
       db.txns[version := c.txn],
       ItemsPut(db.writeItems, version, c.writeSet),
       if info.Some? then db.ledgerInfos[info.value.epoch := info.value] else db.ledgerInfos,
       NewLeaves(h, db, c, version))
  }

  function Saved(h: Hasher, s: Store, c: TxnToCommit, version: nat, info: Option<LedgerInfo>, clearPending: bool): Store
    requires version <= |s.db.leaves|
  {
    Store(SavedDb(h, s.db, c, version, info, clearPending),
          Some(GenerateWitness(c.txn, c.writeSet)),
          if clearPending then None else s.pending,
          Rekeyed(s.keys, c.txn.ParticipantKeys()),
          if info.Some? then info else s.latest)
  }
}
