/** The second half of the sync engine (`run` in src/Sync.ts): for every
    account batch of `runCollect`, look up which import ids the ledger already
    holds, queue the unseen records for import, and mark cleared the ledger
    copies of records the bank has since cleared. */
module Reconcile {
  import opened Wrappers
  import opened Decimals
  import opened Collections
  import opened Sorting
  import opened Bank
  import opened ImportIds
  import opened Sync

  /** A ledger transaction that carries an import id: its ledger id and
      whether the ledger has it cleared. */
  datatype Existing = Existing(id: string, cleared: bool)

  /** `updateTransaction(existingId, { cleared: true, amount })`. */
  datatype Update = Update(existingId: string, amount: Decimal)

  /** What `run` does for one account: one `importTransactions` call with
      `toImport`, and the updates it forks. */
  datatype AccountSync = AccountSync(actualAccountId: string, toImport: seq<ImportRecord>, updates: seq<Update>)

  /** `findImported(ids)` against a ledger keyed by import id: the entries
      whose import id is one of `ids`; with no ids nothing is queried and the
      answer is empty. */
  function FindImported(ledger: map<string, Existing>, ids: seq<string>): (found: map<string, Existing>)
    ensures forall k :: k in found <==> k in ledger && k in ids
    ensures forall k :: k in found ==> found[k] == ledger[k]
    ensures ids == [] ==> found == map[]
  {
    if ids == [] then map[] else map k | k in ledger && k in ids :: ledger[k]
  }

  /** The three ways `run` treats a record. */
  datatype Action = Import | MarkCleared(update: Update) | Leave

  /** How `run` treats one record, given what the ledger already holds. */
  function ActionFor(t: ImportRecord, found: map<string, Existing>): (a: Action)
    ensures a.Import? <==> t.importedId !in found
    ensures a.MarkCleared? <==> t.importedId in found && t.cleared && !found[t.importedId].cleared
    ensures a.MarkCleared? ==> a.update == Update(found[t.importedId].id, t.amount)
  {
    if t.importedId !in found then Import
    else if t.cleared && !found[t.importedId].cleared then MarkCleared(Update(found[t.importedId].id, t.amount))
    else Leave
  }

  /** The records `run` queues for import, in input order. */
  function ToImport(records: seq<ImportRecord>, found: map<string, Existing>): seq<ImportRecord>
    decreases |records|
  {
    if records == [] then []
    else (if ActionFor(records[0], found).Import? then [records[0]] else []) + ToImport(records[1..], found)
  }

  /** The updates `run` issues, in input order. */
  function UpdatesFor(records: seq<ImportRecord>, found: map<string, Existing>): seq<Update>
    decreases |records|
  {
    if records == [] then []
    else (match ActionFor(records[0], found) case MarkCleared(u) => [u] case _ => []) + UpdatesFor(records[1..], found)
  }

  /** A record is queued for import exactly when the ledger holds no entry
      with its import id; the queue keeps the records' order. */
  lemma {:induction false} ToImportMembers(records: seq<ImportRecord>, found: map<string, Existing>)
    ensures forall t :: t in ToImport(records, found) <==> t in records && t.importedId !in found
    ensures IsSubsequence(ToImport(records, found), records)
    decreases |records|
  {
    if records != [] {
      var rest := ToImport(records[1..], found);
      ToImportMembers(records[1..], found);
      assert records == [records[0]] + records[1..];
      if records[0].importedId !in found {
        assert ToImport(records, found) == [records[0]] + rest;
        assert ToImport(records, found)[1..] == rest;
      } else {
        assert ToImport(records, found) == rest;
        SubsequenceOfTail(rest, records);
      }
    }
  }

  /** An update is issued exactly for each record the bank has cleared whose
      ledger copy is not cleared; it names that copy and carries the record's
      amount. */
  lemma {:induction false} UpdatesMembers(records: seq<ImportRecord>, found: map<string, Existing>)
    ensures forall u :: u in UpdatesFor(records, found) <==>
      exists i :: 0 <= i < |records| && ActionFor(records[i], found) == MarkCleared(u)
    ensures |UpdatesFor(records, found)| + |ToImport(records, found)| <= |records|
    decreases |records|
  {
    if records != [] {
      UpdatesMembers(records[1..], found);
      var rest := UpdatesFor(records[1..], found);
      forall u
        ensures u in UpdatesFor(records, found) <==>
          exists i :: 0 <= i < |records| && ActionFor(records[i], found) == MarkCleared(u)
      {
        if u in rest {
          var i :| 0 <= i < |records[1..]| && ActionFor(records[1..][i], found) == MarkCleared(u);
          assert ActionFor(records[i + 1], found) == MarkCleared(u);
        }
        if exists i :: 0 <= i < |records| && ActionFor(records[i], found) == MarkCleared(u) {
          var i :| 0 <= i < |records| && ActionFor(records[i], found) == MarkCleared(u);
          if i > 0 {
            assert records[1..][i - 1] == records[i];
          }
        }
      }
    }
  }

  /** Unfolding `ToImport` and `UpdatesFor` at position `i`. */
  lemma PartitionStep(records: seq<ImportRecord>, found: map<string, Existing>, i: nat)
    requires i < |records|
    ensures ToImport(records[i..], found)
      == (if records[i].importedId !in found then [records[i]] else []) + ToImport(records[i + 1..], found)
    ensures UpdatesFor(records[i..], found)
      == (if records[i].importedId in found && records[i].cleared && !found[records[i].importedId].cleared
          then [Update(found[records[i].importedId].id, records[i].amount)] else [])
         + UpdatesFor(records[i + 1..], found)
  {
    assert records[i..][1..] == records[i + 1..];
  }

  /** The partition loop of `run` for one account. */
  method Reconcile(records: seq<ImportRecord>, found: map<string, Existing>)
    returns (toImport: seq<ImportRecord>, updates: seq<Update>)
    ensures toImport == ToImport(records, found)
    ensures updates == UpdatesFor(records, found)
  {
    toImport := [];
    updates := [];
    var i := 0;
    while i < |records|
      invariant 0 <= i <= |records|
      invariant ToImport(records, found) == toImport + ToImport(records[i..], found)
      invariant UpdatesFor(records, found) == updates + UpdatesFor(records[i..], found)
    {
      var t := records[i];
      PartitionStep(records, found, i);
      if t.importedId !in found {
        AppendAssoc(toImport, [t], ToImport(records[i + 1..], found));
        toImport := toImport + [t];
      } else {
        var existing := found[t.importedId];
        if t.cleared && !existing.cleared {
          AppendAssoc(updates, [Update(existing.id, t.amount)], UpdatesFor(records[i + 1..], found));
          updates := updates + [Update(existing.id, t.amount)];
        }
      }
      i := i + 1;
    }
    assert records[i..] == [];
  }

  /** What `run` does for one batch against the ledger. */
  function SyncFor(batch: AccountBatch, ledger: map<string, Existing>): AccountSync {
    var found := FindImported(ledger, batch.ids);
    AccountSync(batch.actualAccountId, ToImport(batch.transactions, found), UpdatesFor(batch.transactions, found))
  }

  /** The body of `run`'s loop for one batch. */
  method SyncAccount(batch: AccountBatch, ledger: map<string, Existing>) returns (sync: AccountSync)
    ensures sync == SyncFor(batch, ledger)
  {
    var found := FindImported(ledger, batch.ids);
    var toImport, updates := Reconcile(batch.transactions, found);
    sync := AccountSync(batch.actualAccountId, toImport, updates);
  }

  /** `run`'s loop over the batches, in order. */
  method SyncBatches(batches: seq<AccountBatch>, ledger: map<string, Existing>) returns (syncs: seq<AccountSync>)
    ensures syncs == SyncAll(batches, ledger)
  {
    syncs := [];
    var k := 0;
    while k < |batches|
      invariant 0 <= k <= |batches|
      invariant |syncs| == k
      invariant forall j :: 0 <= j < k ==> syncs[j] == SyncFor(batches[j], ledger)
    {
      var sync := SyncAccount(batches[k], ledger);
      syncs := syncs + [sync];
      k := k + 1;
    }
  }

  /** The value of a successful `run`: every batch of `runCollect`, synced in
      order. */
  function RunSpec(options: Options, exports: seq<seq<AccountTransaction>>,
                   le: (AccountTransaction, AccountTransaction) -> bool, ledger: map<string, Existing>): (syncs: seq<AccountSync>)
    requires |exports| == |options.accounts|
    ensures |syncs| == |options.accounts|
  {
    SyncAll(CollectSpec(options, exports, le), ledger)
  }

  /** Every batch synced against the same ledger, in order. */
  function SyncAll(batches: seq<AccountBatch>, ledger: map<string, Existing>): (syncs: seq<AccountSync>)
    ensures |syncs| == |batches|
  {
    seq(|batches|, k requires 0 <= k < |batches| => SyncFor(batches[k], ledger))
  }

  /** `run`: collect every account, then per account find what the ledger
      already holds, import the rest and mark cleared what the bank cleared.
      The ledger is a snapshot given up front. */
  method Run(options: Options, bank: string -> Result<seq<AccountTransaction>, BankError>,
             le: (AccountTransaction, AccountTransaction) -> bool, ledger: map<string, Existing>)
    returns (r: Result<seq<AccountSync>, BankError>)
    ensures r.Success? <==> forall k :: 0 <= k < |options.accounts| ==> bank(options.accounts[k].bankAccountId).Success?
    ensures r.Failure? ==> exists k :: 0 <= k < |options.accounts|
                                       && bank(options.accounts[k].bankAccountId) == Failure(r.error)
                                       && forall j :: 0 <= j < k ==> bank(options.accounts[j].bankAccountId).Success?
    ensures r.Success? ==> r.value == RunSpec(options, Exports(options, bank), le, ledger)
  {
    var collected := RunCollect(options, bank, le);
    if collected.Failure? {
      return Failure(collected.error);
    }
    var syncs := SyncBatches(collected.value, ledger);
    return Success(syncs);
  }

  // ---------------------------------------------------------------------
  // Re-running a sync
  // ---------------------------------------------------------------------

  /** The ledger after `importTransactions`: each queued record becomes an
      entry under its import id, with the ledger id `newId` picks and the
      record's cleared flag. */
  function ImportAll(ledger: map<string, Existing>, toImport: seq<ImportRecord>, newId: string -> string): map<string, Existing>
    decreases |toImport|
  {
    if toImport == [] then ledger
    else
      var t := toImport[0];
      ImportAll(ledger[t.importedId := Existing(newId(t.importedId), t.cleared)], toImport[1..], newId)
  }

  /** Some update names the ledger transaction `id`. */
  predicate Marks(updates: seq<Update>, id: string) {
    exists i :: 0 <= i < |updates| && updates[i].existingId == id
  }

  /** The ledger after the updates: every entry an update names is cleared. */
  function ApplyUpdates(ledger: map<string, Existing>, updates: seq<Update>): map<string, Existing> {
    map k | k in ledger :: if Marks(updates, ledger[k].id) then Existing(ledger[k].id, true) else ledger[k]
  }

  /** The ledger after one account of `run`. */
  function ApplySync(ledger: map<string, Existing>, sync: AccountSync, newId: string -> string): map<string, Existing> {
    ApplyUpdates(ImportAll(ledger, sync.toImport, newId), sync.updates)
  }

  /** Importing leaves the entries under other import ids alone and never
      removes one. */
  lemma {:induction false} ImportAllElsewhere(ledger: map<string, Existing>, toImport: seq<ImportRecord>, newId: string -> string, k: string)
    ensures k in ledger ==> k in ImportAll(ledger, toImport, newId)
    ensures (forall i :: 0 <= i < |toImport| ==> toImport[i].importedId != k) ==>
      (k in ImportAll(ledger, toImport, newId) <==> k in ledger)
      && (k in ledger ==> ImportAll(ledger, toImport, newId)[k] == ledger[k])
    decreases |toImport|
  {
    if toImport != [] {
      var t := toImport[0];
      ImportAllElsewhere(ledger[t.importedId := Existing(newId(t.importedId), t.cleared)], toImport[1..], newId, k);
      if forall i :: 0 <= i < |toImport| ==> toImport[i].importedId != k {
        assert t.importedId != k;
        forall i | 0 <= i < |toImport[1..]|
          ensures toImport[1..][i].importedId != k
        {
          assert toImport[1..][i] == toImport[i + 1];
        }
      }
    }
  }

  /** A queued record whose import id no other queued record shares ends up
      in the ledger under that id with its cleared flag. */
  lemma {:induction false} ImportAllAt(ledger: map<string, Existing>, toImport: seq<ImportRecord>, newId: string -> string, t: ImportRecord)
    requires t in toImport
    requires forall u :: u in toImport && u.importedId == t.importedId ==> u == t
    ensures t.importedId in ImportAll(ledger, toImport, newId)
    ensures ImportAll(ledger, toImport, newId)[t.importedId] == Existing(newId(t.importedId), t.cleared)
    decreases |toImport|
  {
    var next := ledger[toImport[0].importedId := Existing(newId(toImport[0].importedId), toImport[0].cleared)];
    if t in toImport[1..] {
      ImportAllAt(next, toImport[1..], newId, t);
    } else {
      assert toImport[0] == t;
      forall i | 0 <= i < |toImport[1..]|
        ensures toImport[1..][i].importedId != t.importedId
      {
        assert toImport[1..][i] in toImport;
      }
      ImportAllElsewhere(next, toImport[1..], newId, t.importedId);
    }
  }

  /** After one sync every record of the batch has a ledger entry under its
      import id, and a cleared record's entry is cleared. */
  lemma SettledAfterSync(batch: AccountBatch, ledger: map<string, Existing>, newId: string -> string, i: nat)
    requires WellFormedBatch(batch) && i < |batch.ids|
    ensures var after := ApplySync(ledger, SyncFor(batch, ledger), newId);
      && batch.ids[i] in after
      && (batch.transactions[i].cleared ==> after[batch.ids[i]].cleared)
  {
    var records := batch.transactions;
    var found := FindImported(ledger, batch.ids);
    var sync := SyncFor(batch, ledger);
    var imported := ImportAll(ledger, sync.toImport, newId);
    var r := records[i];
    var k := r.importedId;
    if k in found {
      ImportAllElsewhere(ledger, sync.toImport, newId, k);
      ToImportMembers(records, found);
      assert imported[k] == found[k];
      if r.cleared && !found[k].cleared {
        UpdatesMembers(records, found);
        assert ActionFor(records[i], found) == MarkCleared(Update(found[k].id, r.amount));
        assert Marks(sync.updates, imported[k].id);
      }
    } else {
      ToImportMembers(records, found);
      forall u | u in sync.toImport && u.importedId == k
        ensures u == r
      {
        var j :| 0 <= j < |records| && records[j] == u;
        assert batch.ids[j] == k;
      }
      ImportAllAt(ledger, sync.toImport, newId, r);
    }
  }

  /** Syncing a batch twice against the ledger the first sync leaves behind
      imports nothing and updates nothing the second time, whatever ledger ids
      the import hands out. */
  lemma ResyncIsNoop(batch: AccountBatch, ledger: map<string, Existing>, newId: string -> string)
    requires WellFormedBatch(batch)
    ensures var again := SyncFor(batch, ApplySync(ledger, SyncFor(batch, ledger), newId));
      again.toImport == [] && again.updates == []
  {
    var records := batch.transactions;
    var after := ApplySync(ledger, SyncFor(batch, ledger), newId);
    var found2 := FindImported(after, batch.ids);
    forall i | 0 <= i < |records|
      ensures ActionFor(records[i], found2).Leave?
    {
      SettledAfterSync(batch, ledger, newId, i);
    }
    ToImportMembers(records, found2);
    UpdatesMembers(records, found2);
    FirstIsMember(ToImport(records, found2));
    FirstIsMember(UpdatesFor(records, found2));
  }
}
