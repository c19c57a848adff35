# actualbudget-sync, modelled in Dafny

actualbudget-sync copies the last month of bank transactions into an Actual
Budget ledger. A bank provider (BNZ, Up or Akahu) exports each configured
account as a list of `AccountTransaction`s. The sync then works in two steps.

`runCollect` sorts each account's transactions and numbers each one with an
import id. The id is `date ++ amount×100 ++ "-" ++ n`. One counter is shared
by the whole run, so `n` is one more than the number of earlier transactions
with the same prefix: the first gets 1, the second 2. `runCollect` then turns each transaction into a ledger record. The
record carries a resolved category and, for transfers, the payee of the
counterpart account.

`run` asks the ledger which of those import ids it already holds. Records it
does not hold are queued for import. Records the bank has cleared but the
ledger has not are marked cleared. Every other record is left alone.

The model is made of these modules:

- `Wrappers`: `Option` (JavaScript's `undefined`/`??`) and `Result` (an
  effect's failure channel).
- `Text`: `toString`, `padStart`, `join`, `toLowerCase`, `indexOf` and
  `split(sep)[1]` over `seq<char>`.
- `Decimals`: exact decimals (unscaled integer and scale) with ×100, ÷100 and
  JavaScript's printing of a number.
- `Collections`: `find`, `filter`, `map`, occurrence counts, subsequences and
  merging two sequences.
- `Sorting`: a stable insertion sort over an abstract total order. It stands
  in for `AccountTransactionOrder`, which the source does not show.
- `Bank`: `AccountTransaction` (with the `category` and `transfer` fields the
  providers set), dates, zones and `BankError`.
- `Paging`: cursor pagination as both HTTP providers drain it.
- `ImportIds`: `makeImportId`. Its `Map` counter is the class
  `ImportIdCounter`, and `KthIds` is the specification of what the counter
  hands out.
- `Sync`: `categoryId`, `transferAccountId`, the record builder and
  `runCollect`. `runCollect` is a method that numbers through one shared
  counter and is proved equal to `CollectSpec`.
- `Reconcile`: `run`'s partition loop, `Run` itself, and the ledger after a
  sync. The ledger is used to prove that syncing twice changes nothing.
- `Bnz`, `Up`, `Akahu`: each provider's filters, mappers, requests and export.

I/O is passed in as function parameters:

- the bank a provider stands for (`string -> Result<…>`);
- the HTTP endpoints;
- the clock (`now`, or BNZ's dates);
- the time-zone calendar (`TimeZone.dateAt`);
- `DateTime.formatIso`;
- the ledger's `findImported` answer, as a map from import id to the entry.

## Model

| member | source | states |
|---|---|---|
| Decimals.Times100 | src/Sync.ts:8-10 | `amountToInt` is the amount times 100, exactly: the result denotes the same number as `100 × amount` |
| Decimals.CentsRoundTrip | src/Sync.ts:8-10 | a whole number of cents divided by 100 and multiplied back is the same whole number |
| Decimals.NumberText | src/Sync.ts:144-145 | a whole amount prints as the integer it denotes (`${amountInt}`) |
| ImportIds.DateStringRoundTrip | src/Sync.ts:142-143 | for years below 10000 the date part is 8 digits that read back as year, month and day |
| ImportIds.PrefixReadsBack | src/Sync.ts:142-145 | for years below 10000 a prefix is eight digits that read back as the date, then the amount in cents; two prefixes are equal exactly when the dates are and the amounts print the same |
| ImportIds.ImportIdInjective | src/Sync.ts:145-148 | `prefix-n` determines both the prefix and the count |
| ImportIds.ImportIdCounter.Next | src/Sync.ts:146-148 | the counter for the prefix goes up by one, no other counter changes, and the id ends in the new count |
| ImportIds.KthIdsDistinct | src/Sync.ts:139-149 | no two transactions of a run get the same id |
| ImportIds.FirstOccurrenceEndsInOne | src/Sync.ts:146 | the first transaction with a given prefix gets `-1` |
| ImportIds.KthIdsAppend | src/Sync.ts:33 | numbering more transactions later never changes the ids already handed out |
| Sync.MappedCategoryName | src/Sync.ts:36-39 | the first mapping whose bank category equals the transaction's supplies the name; without one the bank category itself is used |
| Sync.CategoryId | src/Sync.ts:35-44 | none exactly when no ledger category matches the mapped name case-insensitively, else the id of the first that does |
| Sync.TransferTarget | src/Sync.ts:47-49 | the ledger account of the first account pair whose bank id is the transfer, none exactly when there is no such pair |
| Sync.TransferAccountId | src/Sync.ts:46-52 | the first payee whose transfer account is that target, none exactly when there is none |
| Sync.UnmatchedTransferPicksPlainPayee | src/Sync.ts:46-52 | an unknown transfer account resolves to the first payee with no transfer account |
| Sync.RecordFor | src/Sync.ts:62-80 | the record carries the id, the ISO date, the amount times 100, notes and cleared; it has a payee id exactly when the transfer and its payee are both non-empty, else the raw payee name |
| Sync.NoCategoryWithoutCategorize | src/Sync.ts:64 | with `categorize` off no record carries a category |
| Sync.NumberPrefixes | src/Sync.ts:63-68 | taking ids for prefixes in order hands out exactly the run's next ids, and the counter then counts the longer run |
| Sync.CollectAccount | src/Sync.ts:58-86 | an account's records are its sorted transactions, numbered after the earlier accounts, with `ids` listing their ids |
| Sync.RunCollect | src/Sync.ts:12-90 | succeeds exactly when every account's export does; otherwise fails with the first failing account's error; on success the batches are `CollectSpec` |
| Sync.CollectedBatchOrder | src/Sync.ts:56-86 | a batch is the account's export sorted (a permutation, sorted when the order is total), one record per transaction in that order, for the right ledger account |
| Sync.CollectedBatchWellFormed | src/Sync.ts:58-86 | `ids` lists exactly the records' import ids, in order, with no repeats |
| Sync.CollectedIdsContinue | src/Sync.ts:33 | a transaction's count includes the equal prefixes of all earlier accounts, not only its own account's |
| Sync.RunIdsDistinct | src/Sync.ts:33 | import ids are unique across the whole run |
| Reconcile.FindImported | src/Actual.ts:123-143 | the entries of the ledger whose import id was asked for, none when no ids were asked for |
| Reconcile.ActionFor | src/Sync.ts:118-132 | a record is imported exactly when its id is unknown, and marked cleared exactly when it is cleared and the known entry is not |
| Reconcile.ToImportMembers | src/Sync.ts:117-120 | the import queue holds exactly the records with unknown ids, in input order |
| Reconcile.UpdatesMembers | src/Sync.ts:121-132 | an update is issued exactly for a record the bank cleared and the ledger has not; at most one action per record |
| Reconcile.Reconcile | src/Sync.ts:115-133 | the loop's queue and updates are `ToImport` and `UpdatesFor` of the records |
| Reconcile.SyncBatches | src/Sync.ts:113-136 | one sync per account, in order, even when there is nothing to import |
| Reconcile.Run | src/Sync.ts:92-137 | succeeds exactly when every export succeeds; otherwise fails with the error of the first account whose export fails; on success it is `RunSpec` |
| Reconcile.ImportAllElsewhere | src/Sync.ts:134 | importing leaves entries under other import ids untouched and removes none |
| Reconcile.ImportAllAt | src/Sync.ts:134 | an imported record is in the ledger under its import id, with its cleared flag |
| Reconcile.SettledAfterSync | src/Sync.ts:113-135 | after a sync every record is in the ledger, and every record the bank cleared is cleared there |
| Reconcile.ResyncIsNoop | src/Sync.ts:113-135 | syncing the same batch again imports nothing and updates nothing |
| Sorting.SortPermutes | src/Sync.ts:61 | sorting keeps the same transactions |
| Sorting.SortSorted | src/Sync.ts:61 | under a total order the sorted list is in order |
| Bank.IsoDateShape | src/Sync.ts:72 | for years below 10000 the ISO date is `YYYY-MM-DD` and each field reads back |
| Bnz.PostedForeignKept | src/Bank/Bnz.ts:127-130 | a posted transaction is never dropped for its currency |
| Bnz.TruthyPartsFilter | src/Bank/Bnz.ts:133-134 | the kept parts are exactly the present, non-empty ones, in their order (`filter` by truthiness) |
| Bnz.MemoSpec | src/Bank/Bnz.ts:132-135 | the memo is the truthy parts among particulars, reference and code, in that order, joined with single spaces |
| Bnz.MemoEmptyIff | src/Bank/Bnz.ts:132-135 | the memo is empty exactly when particulars, reference and code are all empty or absent |
| Bnz.MemoAllPresent | src/Bank/Bnz.ts:132-135 | with all three present the memo is `particulars reference code` |
| Bnz.MemoSkipsEmpty | src/Bank/Bnz.ts:132-135 | an empty particulars leaves no extra space: the memo is `reference code` |
| Bnz.Payee | src/Bank/Bnz.ts:137-141 | the holder name when present (even empty); else the particulars when present; else the type's description |
| Bnz.PayeeStartsMemo | src/Bank/Bnz.ts:137-141 | without a holder name, the particulars are the payee and start the memo |
| Bnz.EmptyHolderNameIsPayee | src/Bank/Bnz.ts:137-141 | an empty holder name is still the payee |
| Bnz.Convert | src/Bank/Bnz.ts:157-163 | cleared exactly when posted; Auckland date of the wall-clock time; memo as notes; payee; amount; no category or transfer |
| Bnz.IsFutureByNumber | src/Bank/Bnz.ts:154-155 | a transaction is in the future exactly when its date, read as `YYYYMMDD`, is greater than today's |
| Bnz.KeptSpec | src/Bank/Bnz.ts:108-110 | a transaction is kept exactly when it is neither pending in a foreign currency nor in the future; the kept ones keep the bank's order |
| Bnz.AccountByName | src/Bank/Bnz.ts:70-71 | the first account with that nickname; none exactly when no nickname matches |
| Bnz.TransactionsPathShape | src/Bank/Bnz.ts:78-88 | the request holds the window's ISO dates and the account id at fixed places |
| Bnz.ExportAccount | src/Bank/Bnz.ts:53-112 | `AccountNotFound` exactly when no nickname matches; for a found account, a failed request gives an `Unknown` BNZ error carrying its cause and a successful one gives a success |
| Bnz.ExportAccountSuccess | src/Bank/Bnz.ts:96-112 | a success fetched the first matching account over thirty days ago to tomorrow and is the kept transactions converted, in order |
| Up.ToAccountTransaction | src/Bank/Up.ts:142-155 | cleared exactly when settled; ×100 of the amount gives back the base units; description, note, category and transfer carried over |
| Up.PrefixUsesBaseUnits | src/Bank/Up.ts:145-148 | an Up transaction's import-id prefix is its date and its base units |
| Up.BaseUnitsPrefixExample | src/Bank/Up.test.ts:50-58 | 200.50 base units on 3 December 2024 number as `20241203200.5` |
| Up.PageRequest | src/Bank/Up.ts:50-53 | no or empty cursor: the first request; a cursor under the base URL: its path, keeping the query; a cursor outside it throws |
| Up.NextLinkFollowed | src/Bank/Up.ts:34-53 | a `next` link under the base URL is requested exactly |
| Up.ExportAccount | src/Bank/Up.ts:94-104 | the export completes or dies exactly when draining the pages does |
| Up.ExportAccountComplete | src/Bank/Up.ts:60-82 | a complete export started at `filter[since]` thirty days ago, followed the links until one was null, and is every page's data converted, in order |
| Paging.CollectComplete | src/Bank/Up.ts:60-67 | a drained stream is a chain of pages linked by their cursors, the last without one, and its items are theirs in order |
| Paging.CollectExhausted | src/Bank/Up.ts:60-67 | the page budget runs out only after that many successful pages, each carrying the next page's cursor, where the source would keep paging |
| Paging.CollectFailed | src/Bank/Akahu.ts:53-60 | a failed stream failed on its last request, after pages that each carried a cursor |
| Akahu.Posted | src/Bank/Akahu.ts:195-204 | cleared; description as notes; category name; merchant name as payee, else the description; date set to the zone |
| Akahu.Pending | src/Bank/Akahu.ts:221-228 | not cleared; description as payee; no notes or category |
| Akahu.SettlingKeepsPrefix | src/Bank/Akahu.ts:195-228 | a pending transaction and the posted one it becomes share their import-id prefix |
| Akahu.ResolveZone | src/Bank/Akahu.ts:121-123 | the current zone when provided, else Pacific/Auckland |
| Akahu.ToPage | src/Bank/Akahu.ts:55-58 | the items, and a next cursor exactly when `cursor.next` is present |
| Akahu.ExportAccount | src/Bank/Akahu.ts:147-160 | fails exactly when a listing fails, with an Unknown Akahu error carrying that cause; exports exactly when both complete |
| Akahu.ExportAccountExported | src/Bank/Akahu.ts:83-104 | the export is the multiset union of pending and posted, each in Akahu's order; cleared exactly for the posted ones |
| Akahu.DecodeRefreshed | src/Bank/Akahu.ts:231-236 | a missing refresh time decodes as the time of decoding |
| Akahu.MinFold | src/Bank/Akahu.ts:68-73 | none exactly when nothing was folded; otherwise one of the values, no greater than any |
| Akahu.LastRefreshed | src/Bank/Akahu.ts:66-76 | succeeds exactly when the listing completes with at least one account, and then is one account's decoded refresh time and no later than any; no accounts, or a failed listing, means the effect dies |
| Akahu.CheckFromSpec | src/Bank/Akahu.ts:129-144 | passes on the first try at or after the earlier time; stale after six stale tries; stops at the first try that dies |
| Akahu.AwaitRefresh | src/Bank/Akahu.ts:129-144 | the retried check's outcome is `CheckFrom` from the first try |
| Akahu.BuildLayer | src/Bank/Akahu.ts:119-146 | the layer dies exactly when the first read dies, and fails exactly when the refresh request fails; once built, the check never fails it |
| Text.SecondPiece | src/Bank/Up.ts:53 | `split(sep)[1]` is undefined exactly when `sep` does not occur; otherwise it is the text after the first occurrence, up to the next occurrence or the end |
| Text.SecondPieceAfterPrefix | src/Bank/Up.ts:53 | splitting `sep + path` gives back `path` when `sep` is not in it |
| Collections.Interleave | src/Bank/Akahu.ts:93 | the merge holds each element of both streams once |
| Collections.InterleaveKeepsOrder | src/Bank/Akahu.ts:93 | the merge keeps the order of each stream |

## Left out

- I/O is not modelled. This covers the ledger client (`src/Actual.ts` apart from what `findImported` returns), the BNZ browser login and `page.evaluate` fetch, npm downloads, and `main.ts` with its configuration wiring. Each appears only as a function parameter where the core calls it.
- Concurrency is not modelled:
  - `run`'s forked update fibers are modelled as an ordered list of updates.
  - `Stream.merge` is modelled as one interleaving, chosen by a `picks` parameter.
  - When both Akahu listings fail, the model reports the pending listing's failure; the source reports whichever fails first.
- Retry schedules, transient-error retries, status filtering and JSON decoding are folded into the endpoint functions. Akahu's refresh check is modelled as one try plus five retries; the waits between them are left out.
- Akahu decodes a missing refresh time as the moment each account is decoded. The model uses one decoding time, `now`, for the whole listing.
- Pagination carries a page budget. `Exhausted`/`Unfinished` means the budget ran out where the source would keep paging. `Akahu.LastRefreshed` reports that case as a `Failure`.
- Floating point is not modelled. `amountToInt` ends in `BigDecimal.unsafeToNumber`, and JavaScript prints the result; `NumberText` matches what JavaScript prints when the ×100 amount has at most 15 significant digits and lies between 1e-6 and 1e21. Other amounts, including integers from 2^53 up, are left out: JavaScript prints them rounded or in exponent form. BNZ's `unsafeFromString` parsing of the amount is left out; the amount arrives as a decimal.
- Time-zone arithmetic and ISO formatting are not modelled. `DateTime` carries its zone-local calendar date. A zone is a name and a calendar function. BNZ's `instantOf` and Up's `formatIso` are parameters.
- Bnz.IsFuture compares calendar dates. The source compares the UTC midnight of the local date with the end of today in Pacific/Auckland, which gives the same answer for a zone ahead of UTC.
- Sync.RecordFor states the amount as the same number as ×100 and does not model its conversion to a JavaScript number.
- ImportIds.ImportIdCounter.Next takes the prefix, not the transaction. The caller computes `Prefix(t)`.
- Sync.CollectAccount takes an id for each transaction before building its record. The source interleaves the two per transaction, and the records do not depend on that order.
- Reconcile.Run works against a snapshot of the ledger given up front. The ledger after a sync (`ApplySync`) marks entries cleared but does not write an update's amount.
- Reconcile.ResyncIsNoop needs a batch whose ids are distinct. `Sync.CollectedBatchWellFormed` proves that `runCollect` always produces such batches.
- `Text.ToLower` lower-cases ASCII letters only. JavaScript's `toLowerCase` covers all of Unicode.
- Up's `setUrl` keeps the first request's query parameters. The model follows this, and does not model how the HTTP client combines them with a query already in the link.
