/** A channel's store and the applier of its transactions come back from a restart as they were. */
module ChannelRestart {
  import opened Basics
  import opened ChannelLedger
  import C = ChannelDb
  import K = KeyRange

  /** The store, and the epoch and the accumulator leaves the applier keeps in memory. */
  datatype Ledger = Ledger(store: Store, epoch: nat, leaves: seq<Hash>)

  /** What the applier needs to come up. */
  predicate Startable(s: Store) {
    s.latest.Some? ==> s.db.infos != map[] && LastKey(s.db.infos.Keys) < |s.db.leaves|
  }

  function Started(s: Store): Ledger
    requires Startable(s)
  {
    if s.latest.None? then Ledger(s, 0, [])
    else Ledger(s, s.latest.value.epoch, s.db.leaves[..LastKey(s.db.infos.Keys) + 1])
  }

  datatype Op =
    | Apply(c: TxnToCommit, timestamp: nat, ioFails: bool)
    | SavePending(pending: PendingTxn, persist: bool, ioFails: bool)
    | ClearPending(ioFails: bool)

  function LedgerInfoOf(h: Hasher, n: Ledger, c: TxnToCommit, timestamp: nat): LedgerInfo {
    LedgerInfo(c.txn.sequenceNumber,
               h.ofLeaves(n.leaves + [h.ofInfo(InfoOf(h, c))]),
               if c.txn.Travel? then c.txn.sequenceNumber else n.epoch,
               timestamp)
  }

  /** A transaction is applied if it carries the next sequence number and can be saved. */
  predicate Applies(h: Hasher, n: Ledger, c: TxnToCommit, timestamp: nat, ioFails: bool) {
    && c.txn.sequenceNumber == |n.leaves|
    && Savable(h, n.store, c, c.txn.sequenceNumber, Some(LedgerInfoOf(h, n, c, timestamp)))
    && !ioFails
  }

  function NextLedger(h: Hasher, n: Ledger, op: Op): Ledger {
    match op
    case Apply(c, timestamp, ioFails) =>
      if !Applies(h, n, c, timestamp, ioFails) then n
      else
        var info := LedgerInfoOf(h, n, c, timestamp);
        Ledger(Saved(h, n.store, c, info.version, Some(info), true), info.epoch, n.leaves + [h.ofInfo(InfoOf(h, c))])
    case SavePending(pending, persist, ioFails) =>
      if persist && ioFails then n
      else
        n.(store := n.store.(db := if persist then n.store.db.(pending := Some(pending)) else n.store.db,
                             pending := Some(pending)))
    case ClearPending(ioFails) =>
      if ioFails then n else n.(store := n.store.(db := n.store.db.(pending := None), pending := None))
  }

  // ----- what every operation keeps

  /** The sequence number of the last of the first `k` transactions that travelled; 0 if none did. */
  function LastTravel(txns: map<nat, Txn>, k: nat): nat
    requires forall v :: 0 <= v < k ==> v in txns
  {
    if k == 0 then 0 else if txns[k - 1].Travel? then k - 1 else LastTravel(txns, k - 1)
  }

  /** Transactions, their infos and their write sets are stored for the versions below `k`. */
  ghost predicate Covers(db: Db, k: nat) {
    && |db.leaves| == k
    && (forall v :: v in db.infos <==> 0 <= v < k)
    && (forall v :: v in db.txns <==> 0 <= v < k)
    && (forall v :: 0 <= v < k ==> db.txns[v].sequenceNumber == v)
    && (forall v: nat, i: nat :: (v, i) in db.writeItems ==> v < k)
  }

  /** The latest ledger info is the one stored under the greatest epoch. */
  ghost predicate Latest(db: Db, info: LedgerInfo) {
    && info.epoch in db.ledgerInfos && db.ledgerInfos[info.epoch] == info
    && forall e :: e in db.ledgerInfos ==> e <= info.epoch
  }

  ghost predicate Current(h: Hasher, n: Ledger) {
    var s, k := n.store, |n.leaves|;
    if k == 0 then n.epoch == 0 && s.latest == None && s.db.ledgerInfos == map[] && s.latestWitness == None
    else
      && s.latest.Some? && Latest(s.db, s.latest.value)
      && s.latest.value.version == k - 1 && s.latest.value.epoch == n.epoch && s.latest.value.root == h.ofLeaves(n.leaves)
      && k - 1 in s.db.txns
      && s.latestWitness == Some(GenerateWitness(s.db.txns[k - 1], ItemsOf(s.db.writeItems, k - 1)))
  }

  function Addresses(rows: seq<KeyRow>): seq<AccountAddress> { seq(|rows|, i requires 0 <= i < |rows| => rows[i].address) }

  /** What is in memory is what a restart would read. */
  ghost predicate Inv(h: Hasher, n: Ledger, participants: AddressSet) {
    && Coherent(n.store)
    && Addresses(n.store.keys) == participants
    && n.store.pending == n.store.db.pending
    && n.store.db.leaves == n.leaves
    && Covers(n.store.db, |n.leaves|)
    && n.epoch == LastTravel(n.store.db.txns, |n.leaves|) && n.epoch <= |n.leaves|
    && Current(h, n)
  }

  lemma {:induction false} LastTravelKept(txns: map<nat, Txn>, txns': map<nat, Txn>, k: nat)
    requires forall v :: 0 <= v < k ==> v in txns && v in txns' && txns'[v] == txns[v]
    ensures LastTravel(txns', k) == LastTravel(txns, k)
    decreases k
  {
    if k > 0 {
      LastTravelKept(txns, txns', k - 1);
    }
  }

  /** The next transaction can always be saved: the stored accumulator and the one in memory have the same root. */
  lemma NextIsSavable(h: Hasher, n: Ledger, participants: AddressSet, c: TxnToCommit, timestamp: nat)
    requires Inv(h, n, participants) && c.txn.sequenceNumber == |n.leaves|
    ensures Savable(h, n.store, c, c.txn.sequenceNumber, Some(LedgerInfoOf(h, n, c, timestamp)))
  {
    assert n.store.db.leaves[..|n.leaves|] == n.leaves;
  }

  lemma SavedCovers(h: Hasher, db: Db, c: TxnToCommit, info: LedgerInfo)
    requires Covers(db, |db.leaves|) && c.txn.sequenceNumber == |db.leaves|
    ensures Covers(SavedDb(h, db, c, |db.leaves|, Some(info), true), |db.leaves| + 1)
  {
    var k := |db.leaves|;
    forall v: nat, i: nat | (v, i) in ItemsPut(db.writeItems, k, c.writeSet) ensures v < k + 1 {
      ItemsPutAt(db.writeItems, k, c.writeSet, v, i);
    }
  }

  lemma SavedCoherent(h: Hasher, s: Store, c: TxnToCommit, version: nat, info: Option<LedgerInfo>, clear: bool)
    requires Coherent(s) && version <= |s.db.leaves|
    ensures Coherent(Saved(h, s, c, version, info, clear))
    ensures Addresses(Saved(h, s, c, version, info, clear).keys) == Addresses(s.keys)
  {
  }

  lemma ApplyKeepsInv(h: Hasher, n: Ledger, participants: AddressSet, c: TxnToCommit, timestamp: nat)
    requires Inv(h, n, participants) && Applies(h, n, c, timestamp, false)
    ensures Inv(h, NextLedger(h, n, Apply(c, timestamp, false)), participants)
  {
    var n' := NextLedger(h, n, Apply(c, timestamp, false));
    var db, db', k := n.store.db, n'.store.db, |n.leaves|;
    var info := LedgerInfoOf(h, n, c, timestamp);
    hide Rekeyed;
    hide ItemsPut;
    hide ItemsOf;
    hide GenerateWitness;
    SavedCoherent(h, n.store, c, k, Some(info), true);
    SavedCovers(h, db, c, info);
    assert db.leaves[..k] == n.leaves;
    LastTravelKept(db.txns, db'.txns, k);
    ItemsReadBack(db.writeItems, k, c.writeSet);
  }

  lemma StepKeepsInv(h: Hasher, n: Ledger, participants: AddressSet, op: Op)
    requires Inv(h, n, participants) && (op.SavePending? ==> op.persist)
    ensures Inv(h, NextLedger(h, n, op), participants)
  {
    if op.Apply? {
      hide Inv;
      if Applies(h, n, op.c, op.timestamp, op.ioFails) {
        ApplyKeepsInv(h, n, participants, op.c, op.timestamp);
      }
    }
  }

  // ----- restart

  /** The store is closed and opened again. */
  ghost predicate Restarts(db: Db, home: C.Address, participants: AddressSet, n: Ledger) {
    && Sound(db, home) && Startable(Opened(db, home, participants))
    && Started(Opened(db, home, participants)) == n
  }

  /** The address has a next one, so that the last rows of the channel can be found; or there are no rows to find. */
  predicate Recoverable(n: Ledger, home: C.Address) { !K.AllFull(home) || n.leaves == [] }

  lemma LatestIsRead(db: Db, info: LedgerInfo, home: C.Address)
    requires Latest(db, info) && !K.AllFull(home)
    ensures LatestLedgerInfo(db, home) == Some(info)
  {
    assert LastKey(db.ledgerInfos.Keys) == info.epoch;
  }

  lemma OpenedKeepsKeys(h: Hasher, n: Ledger, home: C.Address, participants: AddressSet)
    requires Inv(h, n, participants) && Sound(n.store.db, home)
    ensures Opened(n.store.db, home, participants) == Loaded(n.store.db, home)
  {
    if n.store.db.keys == [] {
      assert Addresses(n.store.keys) == participants == [];
      assert NoKeys(participants) == [];
    }
  }

  lemma RestartGivesSame(h: Hasher, n: Ledger, home: C.Address, participants: AddressSet)
    requires Inv(h, n, participants) && Recoverable(n, home)
    ensures Restarts(n.store.db, home, participants, n)
  {
    hide ItemsOf;
    var s, k := n.store, |n.leaves|;
    if k > 0 {
      LatestIsRead(s.db, s.latest.value, home);
      assert k - 1 in s.db.infos.Keys;
      assert LastKey(s.db.infos.Keys) == k - 1;
      assert s.db.leaves[..k] == n.leaves;
    }
    OpenedKeepsKeys(h, n, home, participants);
  }

  /** For the last address of all, a restart begins again from nothing, and refuses the next transaction. */
  lemma RestartFromNothing(h: Hasher, n: Ledger, home: C.Address, participants: AddressSet, c: TxnToCommit, timestamp: nat)
    requires Inv(h, n, participants) && !Recoverable(n, home) && c.txn.sequenceNumber == |n.leaves|
    ensures var empty := Ledger(Store(n.store.db, None, n.store.pending, n.store.keys, None), 0, []);
            Restarts(n.store.db, home, participants, empty) && !Applies(h, empty, c, timestamp, false)
    ensures Applies(h, n, c, timestamp, false)
  {
    OpenedKeepsKeys(h, n, home, participants);
    NextIsSavable(h, n, participants, c, timestamp);
  }

  /** A restart gives the same witness, pending transaction, keys, leaves and epoch, if and only if the address has a next
      one or nothing was ever applied. */
  lemma RestartIsEquivalent(h: Hasher, n: Ledger, home: C.Address, participants: AddressSet)
    requires Inv(h, n, participants)
    ensures Restarts(n.store.db, home, participants, n) <==> Recoverable(n, home)
  {
    if Recoverable(n, home) {
      RestartGivesSame(h, n, home, participants);
    } else {
      RestartFromNothing(h, n, home, participants, TxnToCommit(Offchain(|n.leaves|, []), [], 0, 0), 0);
    }
  }

  ghost predicate IsRun(h: Hasher, home: C.Address, participants: AddressSet, ledgers: seq<Ledger>, ops: seq<Op>) {
    && |ledgers| == |ops| + 1
    && ledgers[0] == Started(Opened(EMPTY_DB, home, participants))
    && (forall i :: 0 <= i < |ops| ==> ledgers[i + 1] == NextLedger(h, ledgers[i], ops[i]))
    && (forall i :: 0 <= i < |ops| && ops[i].SavePending? ==> ops[i].persist)
  }

  lemma {:induction false} RunKeepsInv(h: Hasher, home: C.Address, participants: AddressSet, ledgers: seq<Ledger>, ops: seq<Op>, k: nat)
    requires IsRun(h, home, participants, ledgers, ops) && k <= |ops|
    ensures Inv(h, ledgers[k], participants)
    decreases k
  {
    if k > 0 {
      hide Inv;
      hide NextLedger;
      RunKeepsInv(h, home, participants, ledgers, ops, k - 1);
      assert ledgers[k - 1 + 1] == NextLedger(h, ledgers[k - 1], ops[k - 1]);
      StepKeepsInv(h, ledgers[k - 1], participants, ops[k - 1]);
    } else {
      assert Addresses(NoKeys(participants)) == participants;
    }
  }

  /** After any run of applied and refused transactions and of persisted pending ones, a restart changes nothing, if and
      only if the last rows can be found;
      the number of leaves is one more than the latest version, the epoch is the last travelled sequence number, the
      latest root is that of the leaves, and the witness carries the next sequence number. */
  lemma CrashRestart(h: Hasher, home: C.Address, participants: AddressSet, ledgers: seq<Ledger>, ops: seq<Op>, k: nat)
    requires IsRun(h, home, participants, ledgers, ops) && k <= |ops|
    ensures Restarts(ledgers[k].store.db, home, participants, ledgers[k]) <==> Recoverable(ledgers[k], home)
    ensures |ledgers[k].leaves| == if ledgers[k].store.latest.None? then 0 else ledgers[k].store.latest.value.version + 1
    ensures forall v :: v in ledgers[k].store.db.txns <==> 0 <= v < |ledgers[k].leaves|
    ensures ledgers[k].epoch == LastTravel(ledgers[k].store.db.txns, |ledgers[k].leaves|)
    ensures ledgers[k].store.latest.Some? ==> ledgers[k].store.latest.value.root == h.ofLeaves(ledgers[k].leaves)
    ensures ledgers[k].store.latestWitness.None? <==> ledgers[k].leaves == []
    ensures ledgers[k].store.latestWitness.Some? ==> ledgers[k].store.latestWitness.value.sequenceNumber == |ledgers[k].leaves|
  {
    RunKeepsInv(h, home, participants, ledgers, ops, k);
    RestartIsEquivalent(h, ledgers[k], home, participants);
  }

  /** Exactly the transactions with the next sequence number are applied, if the write succeeds. */
  lemma AppliedWhenNext(h: Hasher, home: C.Address, participants: AddressSet, ledgers: seq<Ledger>, ops: seq<Op>, k: nat,
                        c: TxnToCommit, timestamp: nat, ioFails: bool)
    requires IsRun(h, home, participants, ledgers, ops) && k <= |ops|
    ensures Applies(h, ledgers[k], c, timestamp, ioFails) <==> c.txn.sequenceNumber == |ledgers[k].leaves| && !ioFails
  {
    RunKeepsInv(h, home, participants, ledgers, ops, k);
    if c.txn.sequenceNumber == |ledgers[k].leaves| {
      NextIsSavable(h, ledgers[k], participants, c, timestamp);
    }
  }

  /** A pending transaction comes back from a restart if and only if it was persisted or the same one is stored. */
  lemma UnpersistedPending(h: Hasher, n: Ledger, home: C.Address, participants: AddressSet, pending: PendingTxn, persist: bool)
    requires Inv(h, n, participants)
    ensures var n' := NextLedger(h, n, SavePending(pending, persist, false));
            Restarts(n'.store.db, home, participants, n') <==>
              Recoverable(n, home) && (persist || n.store.db.pending == Some(pending))
  {
    var n' := NextLedger(h, n, SavePending(pending, persist, false));
    if persist {
      StepKeepsInv(h, n, participants, SavePending(pending, persist, false));
      RestartIsEquivalent(h, n', home, participants);
    } else {
      RestartIsEquivalent(h, n, home, participants);
      assert n'.store.db == n.store.db;
    }
  }
}
