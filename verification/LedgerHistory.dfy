/** What a channel's ledger holds after a run is the history of the run. */
module LedgerHistory {
  import opened Basics
  import opened ChannelLedger
  import opened ChannelRestart
  import C = ChannelDb

  datatype Past = Past(c: TxnToCommit, timestamp: nat)

  /** The transactions applied in the first `k` steps. */
  function History(h: Hasher, ledgers: seq<Ledger>, ops: seq<Op>, k: nat): seq<Past>
    requires k <= |ops| < |ledgers|
  {
    if k == 0 then []
    else
      var op := ops[k - 1];
      History(h, ledgers, ops, k - 1) +
      if op.Apply? && Applies(h, ledgers[k - 1], op.c, op.timestamp, op.ioFails) then [Past(op.c, op.timestamp)] else []
  }

  // ----- parts of the ledger

  /** The key that `txn` brings for the `i`-th participant. */
  function BroughtKey(txn: Txn, i: nat): Option<PublicKey> {
    match txn
    case Offchain(_, signatures) => if i < |signatures| then Some(signatures[i].publicKey) else None
    case Travel(_, publicKeys) => if i < |publicKeys| then Some(publicKeys[i]) else None
  }

  /** The key of the `i`-th participant: the last one brought. */
  function KeyAfter(past: seq<Past>, i: nat): Option<PublicKey> {
    if past == [] then None
    else
      var brought := BroughtKey(past[|past| - 1].c.txn, i);
      if brought.Some? then brought else KeyAfter(past[..|past| - 1], i)
  }

  /** Row `v` of every table is about the `v`-th transaction. */
  ghost predicate Records(h: Hasher, db: Db, v: nat, c: TxnToCommit) {
    && c.txn.sequenceNumber == v
    && v in db.txns && db.txns[v] == c.txn
    && ItemsOf(db.writeItems, v) == c.writeSet
    && v in db.infos && db.infos[v].txnHash == h.ofTxn(c.txn) && db.infos[v].writeSetHash == h.ofWriteSet(c.writeSet)
    && db.infos[v].majorStatus == c.majorStatus && db.infos[v].gasUsed == c.gasUsed && db.infos[v].travel == c.txn.Travel?
    && v < |db.leaves| && db.leaves[v] == h.ofInfo(db.infos[v])
  }

  /** The witness is for the transaction after the last one: it shows what that one wrote and who signed it. */
  ghost predicate Witnesses(w: Witness, c: TxnToCommit) {
    && w.sequenceNumber == c.txn.sequenceNumber + 1 && w.writeSet == c.writeSet
    && match c.txn
       case Travel(_, _) => w.signatures == []
       case Offchain(_, s) => |w.signatures| == |s| && forall i :: 0 <= i < |s| ==> w.signatures[i] == s[i].witnessSignature
  }

  ghost predicate Tells(h: Hasher, n: Ledger, participants: AddressSet, past: seq<Past>) {
    && |n.leaves| == |past|
    && (forall v :: 0 <= v < |past| ==> Records(h, n.store.db, v, past[v].c))
    && |n.store.db.keys| == |participants|
    && (forall i :: 0 <= i < |participants| ==> n.store.db.keys[i] == KeyRow(participants[i], KeyAfter(past, i)))
    && (past == [] <==> n.store.latestWitness.None?) && (past == [] <==> n.store.latest.None?)
    && (past != [] ==>
          && Witnesses(n.store.latestWitness.value, past[|past| - 1].c)
          && n.store.latest.value.timestamp == past[|past| - 1].timestamp)
  }

  // ----- proof

  lemma {:induction false} ItemsAtSame(items: map<(nat, nat), WriteItem>, items': map<(nat, nat), WriteItem>, v: nat, indices: set<nat>)
    requires forall i :: i in indices ==> (v, i) in items && (v, i) in items' && items'[(v, i)] == items[(v, i)]
    ensures ItemsAt(items', v, indices) == ItemsAt(items, v, indices)
    decreases |indices|
  {
    if indices != {} {
      ItemsAtSame(items, items', v, indices - {FirstKey(indices)});
    }
  }

  /** Write sets of other versions stay as they are. */
  lemma ItemsOfOther(items: map<(nat, nat), WriteItem>, version: nat, ws: WriteSet, v: nat)
    requires v != version
    ensures ItemsOf(ItemsPut(items, version, ws), v) == ItemsOf(items, v)
  {
    var items' := ItemsPut(items, version, ws);
    forall i: nat
      ensures i in Indices(items', v) <==> i in Indices(items, v)
      ensures i in Indices(items, v) ==> (v, i) in items && (v, i) in items' && items'[(v, i)] == items[(v, i)]
    {
      ItemsPutAt(items, version, ws, v, i);
      IndicesAre(items, v, i);
      IndicesAre(items', v, i);
    }
    assert Indices(items', v) == Indices(items, v);
    ItemsAtSame(items, items', v, Indices(items, v));
  }

  lemma SavedRecords(h: Hasher, db: Db, c: TxnToCommit, info: LedgerInfo, v: nat, earlier: TxnToCommit)
    requires Covers(db, |db.leaves|) && v < |db.leaves| && Records(h, db, v, earlier)
    ensures Records(h, SavedDb(h, db, c, |db.leaves|, Some(info), true), v, earlier)
  {
    hide ItemsOf, ItemsPut, Rekeyed;
    ItemsOfOther(db.writeItems, |db.leaves|, c.writeSet, v);
  }

  lemma SavedRecordsNew(h: Hasher, db: Db, c: TxnToCommit, info: LedgerInfo)
    requires Covers(db, |db.leaves|) && c.txn.sequenceNumber == |db.leaves|
    ensures Records(h, SavedDb(h, db, c, |db.leaves|, Some(info), true), |db.leaves|, c)
  {
    hide ItemsOf, ItemsPut, Rekeyed;
    ItemsReadBack(db.writeItems, |db.leaves|, c.writeSet);
  }

  lemma RekeyedRow(rows: KeyTable, txn: Txn, i: nat)
    requires i < |rows|
    ensures Rekeyed(rows, txn.ParticipantKeys())[i] ==
            rows[i].(key := if BroughtKey(txn, i).Some? then BroughtKey(txn, i) else rows[i].key)
  {
  }

  lemma ApplyTells(h: Hasher, n: Ledger, participants: AddressSet, past: seq<Past>, c: TxnToCommit, timestamp: nat)
    requires Inv(h, n, participants) && Tells(h, n, participants, past) && Applies(h, n, c, timestamp, false)
    ensures Tells(h, NextLedger(h, n, Apply(c, timestamp, false)), participants, past + [Past(c, timestamp)])
  {
    var n', past' := NextLedger(h, n, Apply(c, timestamp, false)), past + [Past(c, timestamp)];
    var info := LedgerInfoOf(h, n, c, timestamp);
    var db, db' := n.store.db, n'.store.db;
    assert db' == SavedDb(h, db, c, |db.leaves|, Some(info), true);
    hide SavedDb, Rekeyed, Records;
    forall v | 0 <= v < |past'| ensures Records(h, db', v, past'[v].c) {
      if v < |past| {
        assert past'[v] == past[v];
        SavedRecords(h, db, c, info, v, past[v].c);
      } else {
        SavedRecordsNew(h, db, c, info);
      }
    }
    SavedKeys(h, db, c, info);
    forall i | 0 <= i < |participants| ensures db'.keys[i] == KeyRow(participants[i], KeyAfter(past', i)) {
      RekeyedRow(db.keys, c.txn, i);
      assert past'[..|past|] == past;
    }
  }

  lemma SavedKeys(h: Hasher, db: Db, c: TxnToCommit, info: LedgerInfo)
    ensures SavedDb(h, db, c, |db.leaves|, Some(info), true).keys == Rekeyed(db.keys, c.txn.ParticipantKeys())
  {
  }

  /** The pending transaction does not matter. */
  lemma PendingTells(h: Hasher, n: Ledger, participants: AddressSet, past: seq<Past>, op: Op)
    requires !op.Apply? && Tells(h, n, participants, past)
    ensures Tells(h, NextLedger(h, n, op), participants, past)
  {
    forall v | 0 <= v < |past| ensures Records(h, NextLedger(h, n, op).store.db, v, past[v].c) {
      assert Records(h, n.store.db, v, past[v].c);
    }
  }

  lemma StartTells(h: Hasher, home: C.Address, participants: AddressSet)
    ensures Tells(h, Started(Opened(EMPTY_DB, home, participants)), participants, [])
  {
  }

  /** After any run: transactions, their write sets, infos and leaves are those of the transactions applied, in order; every
      participant has the key it last brought; and the witness is that of the last transaction. */
  lemma {:induction false} LedgerIsHistory(h: Hasher, home: C.Address, participants: AddressSet, ledgers: seq<Ledger>, ops: seq<Op>, k: nat)
    requires IsRun(h, home, participants, ledgers, ops) && k <= |ops|
    ensures Tells(h, ledgers[k], participants, History(h, ledgers, ops, k))
    decreases k
  {
    hide Tells, Inv, NextLedger, Applies;
    if k == 0 {
      StartTells(h, home, participants);
    } else {
      LedgerIsHistory(h, home, participants, ledgers, ops, k - 1);
      RunKeepsInv(h, home, participants, ledgers, ops, k - 1);
      var n, op := ledgers[k - 1], ops[k - 1];
      assert ledgers[k - 1 + 1] == NextLedger(h, n, op);
      if !op.Apply? {
        PendingTells(h, n, participants, History(h, ledgers, ops, k - 1), op);
        assert History(h, ledgers, ops, k) == History(h, ledgers, ops, k - 1);
      } else if Applies(h, n, op.c, op.timestamp, op.ioFails) {
        AppliesWithoutFailure(h, n, op.c, op.timestamp, op.ioFails);
        ApplyTells(h, n, participants, History(h, ledgers, ops, k - 1), op.c, op.timestamp);
      } else {
        RefusedChangesNothing(h, n, op);
        assert History(h, ledgers, ops, k) == History(h, ledgers, ops, k - 1);
      }
    }
  }

  lemma AppliesWithoutFailure(h: Hasher, n: Ledger, c: TxnToCommit, timestamp: nat, ioFails: bool)
    requires Applies(h, n, c, timestamp, ioFails)
    ensures !ioFails
  {
  }

  lemma RefusedChangesNothing(h: Hasher, n: Ledger, op: Op)
    requires op.Apply? && !Applies(h, n, op.c, op.timestamp, op.ioFails)
    ensures NextLedger(h, n, op) == n
  {
  }

  // ----- the pending transaction

  /** Step `i` decides what is pending: it applies a transaction, sets one aside, or clears it, and does not fail. */
  predicate Decides(h: Hasher, ledgers: seq<Ledger>, ops: seq<Op>, i: nat)
    requires i < |ops| < |ledgers|
  {
    match ops[i]
    case Apply(c, timestamp, ioFails) => Applies(h, ledgers[i], c, timestamp, ioFails)
    case SavePending(_, _, ioFails) => !ioFails
    case ClearPending(ioFails) => !ioFails
  }

  /** What is pending, stored and in memory, is what the last deciding step left. */
  lemma {:induction false} PendingIsLast(h: Hasher, home: C.Address, participants: AddressSet, ledgers: seq<Ledger>, ops: seq<Op>, k: nat, i: nat)
    requires IsRun(h, home, participants, ledgers, ops) && i < k <= |ops|
    requires Decides(h, ledgers, ops, i) && forall j :: i < j < k ==> !Decides(h, ledgers, ops, j)
    ensures ledgers[k].store.pending == ledgers[k].store.db.pending == if ops[i].SavePending? then Some(ops[i].pending) else None
    decreases k
  {
    RunKeepsInv(h, home, participants, ledgers, ops, k);
    var last := k - 1;
    assert ledgers[last + 1] == NextLedger(h, ledgers[last], ops[last]);
    hide Inv;
    if i < last {
      PendingIsLast(h, home, participants, ledgers, ops, last, i);
      assert !Decides(h, ledgers, ops, last);
    }
  }
}
