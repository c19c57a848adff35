/** The sync engine (src/Sync.ts): turns each configured account's bank
    transactions into ledger import records with stable import ids
    (`runCollect`), and decides per record whether the ledger must import it,
    mark an existing copy cleared, or leave it alone (`run`). */
module Sync {
  import opened Wrappers
  import opened Text
  import opened Decimals
  import opened Collections
  import opened Sorting
  import opened Bank
  import opened ImportIds

  // ---------------------------------------------------------------------
  // Configuration and what the ledger reports
  // ---------------------------------------------------------------------

  datatype AccountMapping = AccountMapping(bankAccountId: string, actualAccountId: string)
  datatype CategoryMapping = CategoryMapping(bankCategory: string, actualCategory: string)
  datatype LedgerCategory = LedgerCategory(id: string, name: string)
  datatype LedgerPayee = LedgerPayee(id: string, name: string, transferAcct: Option<string>)

  /** The options of `runCollect`: the account pairs, the categorize flag,
      the bank-to-ledger category names (an absent mapping behaves as an
      empty one), and the ledger's categories and payees. */
  datatype Options = Options(
    accounts: seq<AccountMapping>,
    categorize: bool,
    categoryMapping: seq<CategoryMapping>,
    categories: seq<LedgerCategory>,
    payees: seq<LedgerPayee>)

  // ---------------------------------------------------------------------
  // Category and transfer resolution
  // ---------------------------------------------------------------------

  /** The category name to look up: the ledger name of the first mapping for
      the bank category, else the bank category itself. */
  function MappedCategoryName(category: Option<string>, mapping: seq<CategoryMapping>): (name: Option<string>)
    ensures (forall i :: 0 <= i < |mapping| ==> Some(mapping[i].bankCategory) != category) ==> name == category
    ensures forall i :: 0 <= i < |mapping| && Some(mapping[i].bankCategory) == category
                        && (forall j :: 0 <= j < i ==> Some(mapping[j].bankCategory) != category)
                        ==> name == Some(mapping[i].actualCategory)
  {
    match FindIndex(mapping, (m: CategoryMapping) => Some(m.bankCategory) == category)
    case Some(i) => Some(mapping[i].actualCategory)
    case None => category
  }

  /** A ledger category matches a name when both lower-case to the same text. */
  predicate NameMatches(c: LedgerCategory, name: Option<string>) {
    name.Some? && ToLower(c.name) == ToLower(name.value)
  }

  /** `categoryId`: the id of the first ledger category matching the mapped
      name case-insensitively, if any. */
  function CategoryId(t: AccountTransaction, mapping: seq<CategoryMapping>, categories: seq<LedgerCategory>): (r: Option<string>)
    ensures var name := MappedCategoryName(t.category, mapping);
      && (r.None? <==> forall i :: 0 <= i < |categories| ==> !NameMatches(categories[i], name))
      && (r.Some? ==> exists i :: 0 <= i < |categories| && categories[i].id == r.value
                                  && NameMatches(categories[i], name)
                                  && forall j :: 0 <= j < i ==> !NameMatches(categories[j], name))
  {
    var name := MappedCategoryName(t.category, mapping);
    match FindIndex(categories, (c: LedgerCategory) => NameMatches(c, name))
    case Some(i) => Some(categories[i].id)
    case None => None
  }

  /** The ledger account configured for the transaction's transfer
      counterpart: that of the first account pair whose bank id matches. */
  function TransferTarget(t: AccountTransaction, accounts: seq<AccountMapping>): (target: Option<string>)
    ensures target.None? <==> forall i :: 0 <= i < |accounts| ==> Some(accounts[i].bankAccountId) != t.transfer
    ensures target.Some? ==> exists i :: 0 <= i < |accounts| && Some(accounts[i].bankAccountId) == t.transfer
                                         && accounts[i].actualAccountId == target.value
                                         && forall j :: 0 <= j < i ==> Some(accounts[j].bankAccountId) != t.transfer
  {
    match FindIndex(accounts, (a: AccountMapping) => Some(a.bankAccountId) == t.transfer)
    case Some(i) => Some(accounts[i].actualAccountId)
    case None => None
  }

  /** `transferAccountId`: the id of the first payee whose transfer account
      equals the target; with no target that is the first payee without a
      transfer account. */
  function TransferAccountId(t: AccountTransaction, accounts: seq<AccountMapping>, payees: seq<LedgerPayee>): (r: Option<string>)
    ensures var target := TransferTarget(t, accounts);
      && (r.None? <==> forall i :: 0 <= i < |payees| ==> payees[i].transferAcct != target)
      && (r.Some? ==> exists i :: 0 <= i < |payees| && payees[i].id == r.value
                                  && payees[i].transferAcct == target
                                  && forall j :: 0 <= j < i ==> payees[j].transferAcct != target)
  {
    var target := TransferTarget(t, accounts);
    match FindIndex(payees, (p: LedgerPayee) => p.transferAcct == target)
    case Some(i) => Some(payees[i].id)
    case None => None
  }

  /** A transfer to an account that is not configured still resolves: to the
      first payee that has no transfer account. */
  lemma UnmatchedTransferPicksPlainPayee(t: AccountTransaction, accounts: seq<AccountMapping>, payees: seq<LedgerPayee>, i: nat)
    requires forall k :: 0 <= k < |accounts| ==> Some(accounts[k].bankAccountId) != t.transfer
    requires i < |payees| && payees[i].transferAcct.None?
    requires forall j :: 0 <= j < i ==> payees[j].transferAcct.Some?
    ensures TransferAccountId(t, accounts, payees) == Some(payees[i].id)
  {
    var r := TransferAccountId(t, accounts, payees);
    assert TransferTarget(t, accounts) == None;
    assert r.Some?;
    var k :| 0 <= k < |payees| && payees[k].id == r.value && payees[k].transferAcct == None
             && forall j :: 0 <= j < k ==> payees[j].transferAcct != None;
    assert k == i;
  }

  // ---------------------------------------------------------------------
  // Import records
  // ---------------------------------------------------------------------

  /** Either a resolved ledger payee (`payee`) or the bank's text
      (`payee_name`), never both. */
  datatype RecordPayee = PayeeId(id: string) | PayeeName(name: string)

  /** One record sent to the ledger. `amount` is `amountToInt(amount)`;
      `category` is absent when the key is left out. */
  datatype ImportRecord = ImportRecord(
    importedId: string,
    date: string,
    payee: RecordPayee,
    amount: Decimal,
    notes: Option<string>,
    cleared: bool,
    category: Option<string>)

  /** The record built for one sorted transaction and its id. */
  function RecordFor(t: AccountTransaction, importedId: string, options: Options): (r: ImportRecord)
    ensures r.importedId == importedId && r.cleared == t.cleared && r.notes == t.notes
    ensures r.date == IsoDate(t.dateTime.date)
    ensures SameValue(r.amount, Decimal(100 * t.amount.unscaled, t.amount.scale))
    ensures r.payee.PayeeId? <==> Truthy(t.transfer) && Truthy(TransferAccountId(t, options.accounts, options.payees))
    ensures r.payee.PayeeId? ==> Some(r.payee.id) == TransferAccountId(t, options.accounts, options.payees)
    ensures r.payee.PayeeName? ==> r.payee.name == t.payee
    ensures r.category.Some? <==> options.categorize && Truthy(CategoryId(t, options.categoryMapping, options.categories))
    ensures r.category.Some? ==> r.category == CategoryId(t, options.categoryMapping, options.categories)
  {
    var category := if options.categorize then CategoryId(t, options.categoryMapping, options.categories) else None;
    var transferPayee := if Truthy(t.transfer) then TransferAccountId(t, options.accounts, options.payees) else None;
    ImportRecord(
      importedId,
      IsoDate(t.dateTime.date),
      if Truthy(transferPayee) then PayeeId(transferPayee.value) else PayeeName(t.payee),
      Times100(t.amount),
      t.notes,
      t.cleared,
      if Truthy(category) then category else None)
  }

  /** With categorization off no record ever carries a category, whatever the
      mapping says. */
  lemma NoCategoryWithoutCategorize(t: AccountTransaction, importedId: string, options: Options)
    requires !options.categorize
    ensures RecordFor(t, importedId, options).category.None?
  {
  }

  // ---------------------------------------------------------------------
  // runCollect
  // ---------------------------------------------------------------------

  /** What `runCollect` returns for one account: its records in processing
      order, their ids, and the ledger account they belong to. */
  datatype AccountBatch = AccountBatch(transactions: seq<ImportRecord>, ids: seq<string>, actualAccountId: string)

  /** The prefixes of the whole run, account after account. */
  function RunPrefixes(sorted: seq<seq<AccountTransaction>>): seq<string>
    decreases |sorted|
  {
    if sorted == [] then [] else RunPrefixes(sorted[..|sorted| - 1]) + Prefixes(sorted[|sorted| - 1])
  }

  /** The ids of every batch, account after account. */
  function AllIds(batches: seq<AccountBatch>): seq<string>
    decreases |batches|
  {
    if batches == [] then [] else AllIds(batches[..|batches| - 1]) + batches[|batches| - 1].ids
  }

  /** The batch of account `k`: its sorted transactions, numbered after those
      of the accounts before it. */
  function BatchFor(options: Options, sorted: seq<seq<AccountTransaction>>, k: nat): (b: AccountBatch)
    requires k < |sorted| == |options.accounts|
    ensures |b.transactions| == |b.ids| == |sorted[k]|
  {
    var before := RunPrefixes(sorted[..k]);
    assert sorted[..k + 1][..k] == sorted[..k];
    var ids := KthIds(RunPrefixes(sorted[..k + 1]))[|before|..];
    AccountBatch(RecordsFor(sorted[k], ids, options), ids, options.accounts[k].actualAccountId)
  }

  /** The records of transactions paired with their ids, in order. */
  function RecordsFor(txs: seq<AccountTransaction>, ids: seq<string>, options: Options): (records: seq<ImportRecord>)
    requires |txs| == |ids|
    ensures |records| == |txs|
  {
    seq(|txs|, i requires 0 <= i < |txs| => RecordFor(txs[i], ids[i], options))
  }

  /** The exports of all accounts, when every one succeeded. */
  function Exports(options: Options, bank: string -> Result<seq<AccountTransaction>, BankError>): seq<seq<AccountTransaction>> {
    seq(|options.accounts|, k requires 0 <= k < |options.accounts| =>
      match bank(options.accounts[k].bankAccountId)
      case Success(txs) => txs
      case Failure(_) => [])
  }

  function SortedExports(exports: seq<seq<AccountTransaction>>, le: (AccountTransaction, AccountTransaction) -> bool): (sorted: seq<seq<AccountTransaction>>)
    ensures |sorted| == |exports|
  {
    seq(|exports|, k requires 0 <= k < |exports| => Sort(le, exports[k]))
  }

  /** The value of a successful `runCollect`. */
  function CollectSpec(options: Options, exports: seq<seq<AccountTransaction>>, le: (AccountTransaction, AccountTransaction) -> bool): (batches: seq<AccountBatch>)
    requires |exports| == |options.accounts|
    ensures |batches| == |options.accounts|
  {
    var sorted := SortedExports(exports, le);
    seq(|exports|, k requires 0 <= k < |exports| => BatchFor(options, sorted, k))
  }

  /** One account of `runCollect`: sort the export, number the sorted
      transactions with the shared counter, and build their records. The
      source builds each record in the same callback that takes its id; the
      record depends on nothing else the counter changes, so the model takes
      the ids first. `before` are the prefixes the counter has seen in this
      run. */
  method CollectAccount(counter: ImportIdCounter, ghost before: seq<string>, txs: seq<AccountTransaction>,
                        options: Options, le: (AccountTransaction, AccountTransaction) -> bool)
    returns (records: seq<ImportRecord>, ids: seq<string>)
    requires forall p :: Count(counter.counters, p) == Occ(before, p)
    modifies counter
    ensures var sorted := Sort(le, txs);
      && |ids| == |sorted|
      && ids == KthIds(before + Prefixes(sorted))[|before|..]
      && records == RecordsFor(sorted, ids, options)
      && (forall p :: Count(counter.counters, p) == Occ(before + Prefixes(sorted), p))
  {
    var sorted := Sort(le, txs);
    ids := NumberPrefixes(counter, before, Prefixes(sorted));
    records := RecordsFor(sorted, ids, options);
  }

  /** Takes an id from the shared counter for each prefix in order. */
  method NumberPrefixes(counter: ImportIdCounter, ghost before: seq<string>, ps: seq<string>)
    returns (ids: seq<string>)
    requires forall p :: Count(counter.counters, p) == Occ(before, p)
    modifies counter
    ensures |ids| == |ps|
    ensures ids == KthIds(before + ps)[|before|..]
    ensures forall p :: Count(counter.counters, p) == Occ(before + ps, p)
  {
    ghost var all := KthIds(before + ps);
    ids := [];
    var i := 0;
    assert before + ps[..0] == before;
    while i < |ps|
      invariant 0 <= i <= |ps|
      invariant forall p :: Count(counter.counters, p) == Occ(before + ps[..i], p)
      invariant ids == all[|before|..|before| + i]
    {
      ghost var counts := counter.counters;
      var id := counter.Next(ps[i]);
      ghost var expected := CounterStep(counts, counter.counters, before, ps, i, ps[i]);
      SliceSnoc(all, |before|, i);
      ids := ids + [id];
      i := i + 1;
    }
    SliceAll(ps);
  }

  /** The batch `CollectAccount` builds for account `k` is `BatchFor` that
      account, and its prefixes extend the run's. */
  lemma BatchStep(options: Options, sorted: seq<seq<AccountTransaction>>, k: nat, done: seq<string>,
                  records: seq<ImportRecord>, ids: seq<string>)
    requires k < |sorted| == |options.accounts|
    requires done == RunPrefixes(sorted[..k])
    requires ids == KthIds(done + Prefixes(sorted[k]))[|done|..]
    requires |ids| == |sorted[k]| && records == RecordsFor(sorted[k], ids, options)
    ensures AccountBatch(records, ids, options.accounts[k].actualAccountId) == BatchFor(options, sorted, k)
    ensures RunPrefixes(sorted[..k + 1]) == done + Prefixes(sorted[k])
  {
    assert sorted[..k + 1][..k] == sorted[..k];
  }

  /** The batches of the first `|batches| + 1` accounts, from those of the
      first `|batches|` and the next one. */
  lemma ExtendBatches(batches: seq<AccountBatch>, b: AccountBatch, options: Options, sorted: seq<seq<AccountTransaction>>)
    requires |batches| < |sorted| == |options.accounts|
    requires forall j :: 0 <= j < |batches| ==> batches[j] == BatchFor(options, sorted, j)
    requires b == BatchFor(options, sorted, |batches|)
    ensures forall j :: 0 <= j < |batches| + 1 ==> (batches + [b])[j] == BatchFor(options, sorted, j)
  {
  }

  /** The exports of the first `k` accounts succeeded. */
  ghost predicate ExportedBefore(options: Options, bank: string -> Result<seq<AccountTransaction>, BankError>, k: nat) {
    forall j :: 0 <= j < k && j < |options.accounts| ==> bank(options.accounts[j].bankAccountId).Success?
  }

  lemma ExportedNext(options: Options, bank: string -> Result<seq<AccountTransaction>, BankError>, k: nat)
    requires ExportedBefore(options, bank, k) && k < |options.accounts|
    requires bank(options.accounts[k].bankAccountId).Success?
    ensures ExportedBefore(options, bank, k + 1)
  {
  }

  /** `runCollect`: every configured account in order, one counter for the
      whole run. The first account whose export fails fails the run. */
  method RunCollect(options: Options, bank: string -> Result<seq<AccountTransaction>, BankError>,
                    le: (AccountTransaction, AccountTransaction) -> bool)
    returns (r: Result<seq<AccountBatch>, BankError>)
    ensures r.Success? <==> forall k :: 0 <= k < |options.accounts| ==> bank(options.accounts[k].bankAccountId).Success?
    ensures r.Failure? ==> exists k :: 0 <= k < |options.accounts|
                                       && bank(options.accounts[k].bankAccountId) == Failure(r.error)
                                       && forall j :: 0 <= j < k ==> bank(options.accounts[j].bankAccountId).Success?
    ensures r.Success? ==> r.value == CollectSpec(options, Exports(options, bank), le)
  {
    var counter := new ImportIdCounter();
    var batches: seq<AccountBatch> := [];
    ghost var exports := Exports(options, bank);
    ghost var sorted := SortedExports(exports, le);
    ghost var done: seq<string> := [];
    var k := 0;
    while k < |options.accounts|
      invariant 0 <= k <= |options.accounts|
      invariant ExportedBefore(options, bank, k)
      invariant done == RunPrefixes(sorted[..k])
      invariant forall p :: Count(counter.counters, p) == Occ(done, p)
      invariant |batches| == k
      invariant forall j :: 0 <= j < k ==> batches[j] == BatchFor(options, sorted, j)
    {
      var account := options.accounts[k];
      var exported := bank(account.bankAccountId);
      if exported.Failure? {
        return Failure(exported.error);
      }
      ExportedNext(options, bank, k);
      var txs := exported.value;
      assert sorted[k] == Sort(le, txs);
      var records, ids := CollectAccount(counter, done, txs, options, le);
      BatchStep(options, sorted, k, done, records, ids);
      var batch := AccountBatch(records, ids, account.actualAccountId);
      ExtendBatches(batches, batch, options, sorted);
      batches := batches + [batch];
      done := done + Prefixes(sorted[k]);
      k := k + 1;
    }
    assert batches == CollectSpec(options, exports, le);
    return Success(batches);
  }

  // ---------------------------------------------------------------------
  // What a run promises
  // ---------------------------------------------------------------------

  /** A batch as `runCollect` builds it: its records carry its ids, in order,
      and no id repeats. */
  ghost predicate WellFormedBatch(batch: AccountBatch) {
    && |batch.transactions| == |batch.ids|
    && (forall i :: 0 <= i < |batch.ids| ==> batch.transactions[i].importedId == batch.ids[i])
    && (forall i, j :: 0 <= i < j < |batch.ids| ==> batch.ids[i] != batch.ids[j])
  }

  /** Account `k`'s batch holds one record per exported transaction, built
      from the export sorted by the order (a permutation of it, sorted when
      the order is total), in that order, for the account's ledger account. */
  lemma CollectedBatchOrder(options: Options, exports: seq<seq<AccountTransaction>>,
                            le: (AccountTransaction, AccountTransaction) -> bool, k: nat)
    requires |exports| == |options.accounts| && k < |exports|
    ensures var b := CollectSpec(options, exports, le)[k];
      var sorted := Sort(le, exports[k]);
      && b.actualAccountId == options.accounts[k].actualAccountId
      && |b.transactions| == |b.ids| == |sorted| == |exports[k]|
      && multiset(sorted) == multiset(exports[k])
      && (Total(le) ==> Sorted(le, sorted))
      && forall i :: 0 <= i < |sorted| ==> b.transactions[i] == RecordFor(sorted[i], b.ids[i], options)
  {
    SortPermutes(le, exports[k]);
    if Total(le) {
      SortSorted(le, exports[k]);
    }
  }

  /** Account `k`'s batch is well formed: each record carries the id listed
      beside it, and no two records of the account share an id. */
  lemma CollectedBatchWellFormed(options: Options, exports: seq<seq<AccountTransaction>>,
                                 le: (AccountTransaction, AccountTransaction) -> bool, k: nat)
    requires |exports| == |options.accounts| && k < |exports|
    ensures WellFormedBatch(CollectSpec(options, exports, le)[k])
  {
    BatchWellFormed(options, SortedExports(exports, le), k);
  }

  /** The batch of account `k` is well formed whatever the sorted exports. */
  lemma BatchWellFormed(options: Options, sorted: seq<seq<AccountTransaction>>, k: nat)
    requires k < |sorted| == |options.accounts|
    ensures WellFormedBatch(BatchFor(options, sorted, k))
  {
    var b := BatchFor(options, sorted, k);
    assert sorted[..k + 1][..k] == sorted[..k];
    var all := RunPrefixes(sorted[..k + 1]);
    KthIdsDistinct(all);
    DistinctSuffix(KthIds(all), |RunPrefixes(sorted[..k])|);
  }

  /** A suffix of a sequence without repeats has none either. */
  lemma DistinctSuffix(xs: seq<string>, n: nat)
    requires n <= |xs|
    requires forall i, j :: 0 <= i < j < |xs| ==> xs[i] != xs[j]
    ensures forall i, j :: 0 <= i < j < |xs[n..]| ==> xs[n..][i] != xs[n..][j]
  {
    forall i, j | 0 <= i < j < |xs[n..]|
      ensures xs[n..][i] != xs[n..][j]
    {
      assert xs[n..][i] == xs[n + i] && xs[n..][j] == xs[n + j];
    }
  }

  /** The id counter is shared by the whole run: the `i`-th transaction of
      account `k` is numbered after every transaction with its prefix in the
      earlier accounts and earlier in its own account. */
  lemma CollectedIdsContinue(options: Options, exports: seq<seq<AccountTransaction>>,
                             le: (AccountTransaction, AccountTransaction) -> bool, k: nat, i: nat)
    returns (before: seq<string>, ps: seq<string>)
    requires |exports| == |options.accounts| && k < |exports| && i < |exports[k]|
    ensures before == RunPrefixes(SortedExports(exports, le)[..k])
    ensures ps == Prefixes(SortedExports(exports, le)[k]) && i < |ps|
    ensures CollectSpec(options, exports, le)[k].ids[i]
      == ImportId(ps[i], Occ(before, ps[i]) + Occ(ps[..i], ps[i]) + 1)
  {
    var sorted := SortedExports(exports, le);
    before := RunPrefixes(sorted[..k]);
    ps := Prefixes(sorted[k]);
    assert sorted[..k + 1][..k] == sorted[..k];
    assert RunPrefixes(sorted[..k + 1]) == before + ps;
    var id := KthIdAfter(before, ps, i);
    assert CollectSpec(options, exports, le)[k].ids[i] == id;
  }

  /** The ids of the accounts, one after another, are the ids of the run's
      prefixes in processing order. */
  lemma {:induction false} AllIdsOfBatches(options: Options, sorted: seq<seq<AccountTransaction>>, k: nat)
    requires k <= |sorted| == |options.accounts|
    ensures AllIds(seq(k, j requires 0 <= j < k => BatchFor(options, sorted, j))) == KthIds(RunPrefixes(sorted[..k]))
    decreases k
  {
    if k > 0 {
      AllIdsOfBatches(options, sorted, k - 1);
      AllIdsSnoc(options, sorted, k);
      RunPrefixesSnoc(sorted, k);
      var before := RunPrefixes(sorted[..k - 1]);
      var all := RunPrefixes(sorted[..k]);
      KthIdsAppend(before, Prefixes(sorted[k - 1]));
      SplitAt(KthIds(all), |before|);
    }
  }

  /** The ids of `k` batches are those of the first `k - 1` and then the
      last one's. */
  lemma AllIdsSnoc(options: Options, sorted: seq<seq<AccountTransaction>>, k: nat)
    requires 0 < k <= |sorted| == |options.accounts|
    ensures AllIds(seq(k, j requires 0 <= j < k => BatchFor(options, sorted, j)))
      == AllIds(seq(k - 1, j requires 0 <= j < k - 1 => BatchFor(options, sorted, j))) + BatchFor(options, sorted, k - 1).ids
  {
    var batches := seq(k, j requires 0 <= j < k => BatchFor(options, sorted, j));
    assert batches[..k - 1] == seq(k - 1, j requires 0 <= j < k - 1 => BatchFor(options, sorted, j));
  }

  /** The run's prefixes up to account `k` are those up to `k - 1` and then
      account `k - 1`'s. */
  lemma RunPrefixesSnoc(sorted: seq<seq<AccountTransaction>>, k: nat)
    requires 0 < k <= |sorted|
    ensures RunPrefixes(sorted[..k]) == RunPrefixes(sorted[..k - 1]) + Prefixes(sorted[k - 1])
  {
    assert sorted[..k][..k - 1] == sorted[..k - 1];
  }

  /** A sequence is its part before `n` followed by its part from `n`. */
  lemma SplitAt<T>(s: seq<T>, n: nat)
    requires n <= |s|
    ensures s == s[..n] + s[n..]
  {
  }

  /** No two transactions of a run get the same id, in the same account or
      in different ones. */
  lemma RunIdsDistinct(options: Options, exports: seq<seq<AccountTransaction>>,
                       le: (AccountTransaction, AccountTransaction) -> bool)
    requires |exports| == |options.accounts|
    ensures var ids := AllIds(CollectSpec(options, exports, le));
      forall i, j :: 0 <= i < j < |ids| ==> ids[i] != ids[j]
  {
    var sorted := SortedExports(exports, le);
    AllIdsOfBatches(options, sorted, |sorted|);
    assert sorted[..|sorted|] == sorted;
    KthIdsDistinct(RunPrefixes(sorted));
  }
}
