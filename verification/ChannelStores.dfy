/** The channel store and the transaction applier as they update their caches. */
module ChannelStores {
  import opened Basics
  import opened ChannelLedger
  import opened ChannelRestart
  import C = ChannelDb
  import K = KeyRange

  class ChannelStore {
    const hasher: Hasher
    /** Under which address the channel's rows are kept. */
    const home: C.Address
    var db: Db
    var latestWitness: Option<Witness>
    var pendingTxn: Option<PendingTxn>
    var participantKeys: KeyTable
    var latestLedgerInfo: Option<LedgerInfo>

    ghost function State(): Store
      reads this
    {
      Store(db, latestWitness, pendingTxn, participantKeys, latestLedgerInfo)
    }

    ghost predicate Valid()
      reads this
    {
      Coherent(State())
    }

    /** A store with nothing cached yet. */
    constructor (stored: Db, home: C.Address, hasher: Hasher)
      ensures this.hasher == hasher && this.home == home && State() == Store(stored, None, None, [], None)
    {
      this.hasher := hasher;
      this.home := home;
      db, latestWitness, pendingTxn, participantKeys, latestLedgerInfo := stored, None, None, [], None;
    }

    /** Rebuilds the caches.  `up` is false where the source panics: the latest transaction is missing. */
    method Bootstrap(participants: AddressSet) returns (up: bool)
      modifies this
      ensures up <==> Sound(old(db), home)
      ensures up ==> Valid() && State() == Opened(old(db), home, participants)
    {
      latestLedgerInfo := if db.ledgerInfos == map[] || K.AllFull(home) then None
                          else Some(db.ledgerInfos[LastKey(db.ledgerInfos.Keys)]);
      participantKeys := db.keys;
      pendingTxn := db.pending;
      up := LoadWitness();
      if up && participantKeys == [] {
        RegisterParticipants(participants);
      }
    }

    method LoadWitness() returns (loaded: bool)
      modifies this`latestWitness
      ensures loaded <==> latestLedgerInfo.Some? ==> latestLedgerInfo.value.version in db.txns
      ensures loaded ==> latestWitness == if latestLedgerInfo.None? then None
        else Some(GenerateWitness(db.txns[latestLedgerInfo.value.version], ItemsOf(db.writeItems, latestLedgerInfo.value.version)))
    {
      match latestLedgerInfo
      case None =>
        latestWitness := None;
        loaded := true;
      case Some(info) =>
        var ws := GetWriteSet(db.writeItems, info.version);
        if info.version !in db.txns {
          return false;
        }
        latestWitness := Some(GenerateWitness(db.txns[info.version], ws));
        loaded := true;
    }

    /** Reads the rows of a version one after the other, in the order of their indices. */
    static method GetWriteSet(items: map<(nat, nat), WriteItem>, version: nat) returns (ws: WriteSet)
      ensures ws == ItemsOf(items, version)
    {
      ws := [];
      var todo := Indices(items, version);
      assert forall i: nat :: i in todo ==> (version, i) in items;
      while todo != {}
        invariant forall i: nat :: i in todo ==> (version, i) in items
        invariant ItemsOf(items, version) == ws + ItemsAt(items, version, todo)
      {
        var i := FirstKey(todo);
        ws := ws + [items[(version, i)]];
        todo := todo - {i};
      }
    }

    method RegisterParticipants(participants: AddressSet)
      requires db.keys == []
      modifies this`db, this`participantKeys
      ensures db == old(db).(keys := NoKeys(participants)) && participantKeys == NoKeys(participants)
    {
      hide Committed, NoKeys, Upserted;
      var batch: seq<Write> := [];
      var i := 0;
      NoKeysMore(participants);
      NothingCommitted(db);
      while i < |participants|
        invariant 0 <= i <= |participants| && db == old(db)
        invariant Committed(db, batch) == db.(keys := NoKeys(participants[..i]))
      {
        var row := KeyRow(participants[i], None);
        CommittedOne(db, batch, PutKey(row));
        NoKeysMore(participants[..i + 1]);
        assert participants[..i + 1][..i] == participants[..i];
        batch := batch + [PutKey(row)];
        i := i + 1;
      }
      assert participants[..i] == participants;
      db := Committed(db, batch);
      participantKeys := db.keys;
    }

    /** The writes for keys that change, and the rows they put. */
    method UpdateKeys(newKeys: seq<PublicKey>) returns (batch: seq<Write>, updated: seq<KeyRow>)
      requires Valid()
      ensures Committed(db, batch) == db.(keys := Rekeyed(db.keys, newKeys))
      ensures UpsertedAll(participantKeys, updated) == Rekeyed(participantKeys, newKeys)
      ensures |batch| == |updated| && forall i :: 0 <= i < |batch| ==> batch[i] == PutKey(updated[i]) && updated[i] !in participantKeys
    {
      hide Committed, UpsertedAll, Upserted;
      batch, updated := [], [];
      var i := 0;
      NothingCommitted(db);
      assert Rekeyed(participantKeys, newKeys[..0]) == participantKeys;
      while i < |participantKeys| && i < |newKeys|
        invariant 0 <= i <= |participantKeys| && i <= |newKeys|
        invariant Committed(db, batch) == db.(keys := Rekeyed(db.keys, newKeys[..i]))
        invariant UpsertedAll(participantKeys, updated) == Rekeyed(participantKeys, newKeys[..i])
        invariant |batch| == |updated|
        invariant forall j :: 0 <= j < |batch| ==> batch[j] == PutKey(updated[j]) && updated[j] !in participantKeys
      {
        var row := participantKeys[i];
        RekeyedOne(participantKeys, newKeys, i);
        if row.key != Some(newKeys[i]) {
          var row' := KeyRow(row.address, Some(newKeys[i]));
          CommittedOne(db, batch, PutKey(row'));
          UpsertedOne(participantKeys, updated, row');
          batch, updated := batch + [PutKey(row')], updated + [row'];
        }
        i := i + 1;
      }
      assert Rekeyed(participantKeys, newKeys[..i]) == Rekeyed(participantKeys, newKeys);
    }

    /** The writes for a write set, one item at a time. */
    method PutWriteSet(version: nat, ws: WriteSet, batch: seq<Write>) returns (batch': seq<Write>)
      ensures Committed(db, batch') == var d := Committed(db, batch); d.(writeItems := ItemsPut(d.writeItems, version, ws))
    {
      batch' := batch;
      var i := 0;
      ghost var d := Committed(db, batch);
      while i < |ws|
        invariant 0 <= i <= |ws|
        invariant Committed(db, batch') == d.(writeItems := ItemsPut(d.writeItems, version, ws[..i]))
      {
        CommittedOne(db, batch', PutItem(version, i, ws[i]));
        assert ws[..i + 1][..i] == ws[..i];
        batch' := batch' + [PutItem(version, i, ws[i])];
        i := i + 1;
      }
      assert ws[..i] == ws;
    }

    method AppendKeys(updated: seq<KeyRow>)
      modifies this`participantKeys
      ensures participantKeys == UpsertedAll(old(participantKeys), updated)
    {
      var i := 0;
      while i < |updated|
        invariant 0 <= i <= |updated| && participantKeys == UpsertedAll(old(participantKeys), updated[..i])
      {
        assert updated[..i + 1] == updated[..i] + [updated[i]];
        UpsertedOne(old(participantKeys), updated[..i], updated[i]);
        participantKeys := Upserted(participantKeys, updated[i]);
        i := i + 1;
      }
      assert updated[..i] == updated;
    }

    /** Everything is stored and cached, or nothing is changed. */
    method SaveTx(c: TxnToCommit, version: nat, info: Option<LedgerInfo>, clearPending: bool, ioFails: bool) returns (ok: bool)
      requires Valid()
      modifies this
      ensures Valid()
      ensures ok <==> Savable(hasher, old(State()), c, version, info) && !ioFails
      ensures !ok ==> State() == old(State())
      ensures ok ==> State() == Saved(hasher, old(State()), c, version, info, clearPending)
    {
      hide Committed, Rekeyed, UpsertedAll, ItemsPut, Txn.ParticipantKeys;
      if info.Some? && info.value.version != version {
        return false;
      }
      var batch, updated := UpdateKeys(c.txn.ParticipantKeys());
      var fits := version <= |db.leaves|;
      if !fits {
        return false;
      }
      batch := StageTx(c, version, batch);
      if info.Some? {
        if hasher.ofLeaves(NewLeaves(hasher, db, c, version)) != info.value.root {
          return false;
        }
        CommittedOne(db, batch, PutLedgerInfo(info.value));
        batch := batch + [PutLedgerInfo(info.value)];
      }
      if clearPending {
        CommittedOne(db, batch, DeletePending);
        batch := batch + [DeletePending];
      }
      if ioFails {
        return false;
      }
      SavedCoherent(hasher, State(), c, version, info, clearPending);
      db := Committed(db, batch);
      if info.Some? {
        latestLedgerInfo := info;
      }
      AppendKeys(updated);
      latestWitness := Some(GenerateWitness(c.txn, c.writeSet));
      if clearPending {
        pendingTxn := None;
      }
      ok := true;
    }

    /** Write set, transaction, info and leaf. */
    method StageTx(c: TxnToCommit, version: nat, batch: seq<Write>) returns (batch': seq<Write>)
      requires version <= |db.leaves| && Committed(db, batch) == db.(keys := Committed(db, batch).keys)
      ensures Committed(db, batch') == SavedDb(hasher, db, c, version, None, false).(keys := Committed(db, batch).keys)
    {
      var info := TxnInfo(hasher.ofTxn(c.txn), hasher.ofWriteSet(c.writeSet), c.majorStatus, c.txn.Travel?, c.gasUsed);
      var b := PutWriteSet(version, c.writeSet, batch);
      CommittedOne(db, b, PutTxn(version, c.txn));
      b := b + [PutTxn(version, c.txn)];
      CommittedOne(db, b, PutInfo(version, info));
      b := b + [PutInfo(version, info)];
      CommittedOne(db, b, PutLeaf(version, hasher.ofInfo(info)));
      batch' := b + [PutLeaf(version, hasher.ofInfo(info))];
      assert db.leaves[..version] == db.leaves[..if version < |db.leaves| then version else |db.leaves|];
    }

    method SavePendingTxn(pending: PendingTxn, persist: bool, ioFails: bool) returns (ok: bool)
      requires Valid()
      modifies this
      ensures Valid() && (ok <==> !(persist && ioFails))
      ensures !ok ==> State() == old(State())
      ensures ok ==> State() == old(State()).(pending := Some(pending),
                                              db := if persist then old(db).(pending := Some(pending)) else old(db))
    {
      if persist {
        if ioFails {
          return false;
        }
        NothingCommitted(db);
        CommittedOne(db, [], PutPending(pending));
        db := Committed(db, [] + [PutPending(pending)]);
      }
      pendingTxn := Some(pending);
      ok := true;
    }

    method ClearPendingTxn(ioFails: bool) returns (ok: bool)
      requires Valid()
      modifies this
      ensures Valid() && (ok <==> !ioFails)
      ensures !ok ==> State() == old(State())
      ensures ok ==> State() == old(State()).(pending := None, db := old(db).(pending := None))
    {
      if ioFails {
        return false;
      }
      CommittedOne(db, [], DeletePending);
      db := Committed(db, [] + [DeletePending]);
      pendingTxn := None;
      ok := true;
    }
  }

  /** Putting the rows one after the other gives the table. */
  lemma NoKeysMore(participants: AddressSet)
    ensures NoKeys([]) == []
    ensures participants != [] ==>
      var i := |participants| - 1; NoKeys(participants) == Upserted(NoKeys(participants[..i]), KeyRow(participants[i], None))
  {
    if participants != [] {
      var i := |participants| - 1;
      AppendedLast(NoKeys(participants[..i]), KeyRow(participants[i], None));
      assert NoKeys(participants) == NoKeys(participants[..i]) + [KeyRow(participants[i], None)];
    }
  }

  lemma {:induction false} AppendedLast(rows: KeyTable, row: KeyRow)
    requires forall i :: 0 <= i < |rows| ==> rows[i].address < row.address
    ensures Upserted(rows, row) == rows + [row]
    decreases |rows|
  {
    if rows != [] {
      AppendedLast(rows[1..], row);
      assert rows + [row] == [rows[0]] + (rows[1..] + [row]);
    }
  }

  class TxApplier {
    const store: ChannelStore
    var epoch: nat
    var txAccumulator: seq<Hash>

    ghost function State(): Ledger
      reads this, store
    {
      Ledger(store.State(), epoch, txAccumulator)
    }

    constructor (store: ChannelStore, epoch: nat, txAccumulator: seq<Hash>)
      ensures this.store == store && State() == Ledger(store.State(), epoch, txAccumulator)
    {
      this.store := store;
      this.epoch, this.txAccumulator := epoch, txAccumulator;
    }

    /** An applier over the store, or none where the stored rows are not enough and the source panics. */
    static method Start(store: ChannelStore) returns (r: Option<TxApplier>)
      ensures r.Some? <==> Startable(store.State())
      ensures r.Some? ==> fresh(r.value) && r.value.store == store && r.value.State() == Started(store.State())
    {
      if store.latestLedgerInfo.None? {
        var applier := new TxApplier(store, 0, []);
        return Some(applier);
      }
      if store.db.infos == map[] || LastKey(store.db.infos.Keys) >= |store.db.leaves| {
        return None;
      }
      var applier := new TxApplier(store, store.latestLedgerInfo.value.epoch, store.db.leaves[..LastKey(store.db.infos.Keys) + 1]);
      return Some(applier);
    }

    /** The next state of the ledger, or no change. */
    method Apply(c: TxnToCommit, timestamp: nat, ioFails: bool) returns (ok: bool)
      requires store.Valid()
      modifies this, store
      ensures store.Valid()
      ensures ok <==> Applies(store.hasher, old(State()), c, timestamp, ioFails)
      ensures State() == NextLedger(store.hasher, old(State()), ChannelRestart.Apply(c, timestamp, ioFails))
      ensures !ok ==> State() == old(State())
    {
      var number := c.txn.sequenceNumber;
      if number != |txAccumulator| {
        return false;
      }
      var h := store.hasher;
      var info := TxnInfo(h.ofTxn(c.txn), h.ofWriteSet(c.writeSet), c.majorStatus, c.txn.Travel?, c.gasUsed);
      var newAccumulator := txAccumulator + [h.ofInfo(info)];
      var newEpoch := if c.txn.Travel? then number else epoch;
      var ledgerInfo := LedgerInfo(number, h.ofLeaves(newAccumulator), newEpoch, timestamp);
      ok := store.SaveTx(c, number, Some(ledgerInfo), true, ioFails);
      if ok {
        epoch := newEpoch;
        txAccumulator := newAccumulator;
      }
    }
  }
}
