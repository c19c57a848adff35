/** The BNZ provider (src/Bank/Bnz.ts): finds the account by nickname, asks
    the internet banking API for the last thirty days of its transactions, and
    turns the ones worth importing into `AccountTransaction`s. */
module Bnz {
  import opened Wrappers
  import opened Text
  import opened Decimals
  import opened Collections
  import opened Bank

  /** `Details`: the payment references of one side of a transaction. */
  datatype Details = Details(particulars: Option<string>, reference: Option<string>, code: Option<string>)

  /** A local (Pacific/Auckland) wall-clock time: the calendar date and the
      milliseconds into that day. */
  datatype WallClock = WallClock(date: Date, millisOfDay: nat)

  /** One BNZ transaction, as much of it as the provider reads. `timestamp`
      is local wall-clock time; `amount` is `value.amount` read as a decimal. */
  datatype Transaction = Transaction(
    id: string,
    details: Details,
    holderName: Option<string>,
    timestamp: WallClock,
    statusCode: string,
    currency: string,
    amount: Decimal,
    typeDescription: string)

  /** `IBnzAccount`: the account's API id and the nickname users know it by. */
  datatype Account = Account(id: string, nickname: string)

  /** The local dates the provider works with, all in Pacific/Auckland: today,
      thirty days ago, and tomorrow. */
  datatype Clock = Clock(today: Date, monthAgo: Date, tomorrow: Date)

  /** `isPending`: every status other than `POSTED` is pending. */
  predicate IsPending(t: Transaction) {
    t.statusCode != "POSTED"
  }

  /** `isPendingInternational`: pending and not in New Zealand dollars. */
  predicate IsPendingInternational(t: Transaction) {
    IsPending(t) && t.currency != "NZD"
  }

  /** A posted transaction is never dropped for its currency. */
  lemma PostedForeignKept(t: Transaction)
    requires t.statusCode == "POSTED"
    ensures !IsPendingInternational(t)
  {
  }

  /** The present, non-empty parts, in order (`filter((s) => !!s)`). */
  function TruthyParts(parts: seq<Option<string>>): (r: seq<string>)
    ensures |r| <= |parts|
    ensures forall i :: 0 <= i < |r| ==> r[i] != ""
    ensures r == [] <==> forall i :: 0 <= i < |parts| ==> !Truthy(parts[i])
    decreases |parts|
  {
    if parts == [] then []
    else (if Truthy(parts[0]) then [parts[0].value] else []) + TruthyParts(parts[1..])
  }

  /** The present, non-empty parts are exactly the truthy ones, in order:
      JavaScript's `filter` by truthiness. */
  lemma {:induction false} TruthyPartsFilter(parts: seq<Option<string>>)
    ensures TruthyParts(parts) == Map(Filter(parts, Truthy), (o: Option<string>) => o.GetOr(""))
    decreases |parts|
  {
    if parts != [] {
      TruthyPartsFilter(parts[1..]);
    }
  }

  /** `memo`: particulars, reference and code, the non-empty ones, joined with
      single spaces. */
  function Memo(t: Transaction): string {
    Join(TruthyParts([t.details.particulars, t.details.reference, t.details.code]), " ")
  }

  /** The memo in full: the truthy parts among particulars, reference and
      code, in that order, joined with single spaces. */
  lemma MemoSpec(t: Transaction)
    ensures Memo(t) == Join(Map(Filter([t.details.particulars, t.details.reference, t.details.code], Truthy),
                                (o: Option<string>) => o.GetOr("")), " ")
  {
    TruthyPartsFilter([t.details.particulars, t.details.reference, t.details.code]);
  }

  /** Joining starts with the first part. */
  lemma JoinStartsWithFirst(parts: seq<string>, sep: string)
    requires parts != []
    ensures |Join(parts, sep)| >= |parts[0]| && Join(parts, sep)[..|parts[0]|] == parts[0]
  {
  }

  /** The memo is empty exactly when particulars, reference and code are all
      absent or empty. */
  lemma MemoEmptyIff(t: Transaction)
    ensures Memo(t) == "" <==> !Truthy(t.details.particulars) && !Truthy(t.details.reference) && !Truthy(t.details.code)
  {
    var parts := [t.details.particulars, t.details.reference, t.details.code];
    assert parts[0] == t.details.particulars && parts[1] == t.details.reference && parts[2] == t.details.code;
    var present := TruthyParts(parts);
    if present != [] {
      JoinStartsWithFirst(present, " ");
      assert present[0] != "";
    }
  }

  /** With all three present the memo is `particulars reference code`. */
  lemma MemoAllPresent(t: Transaction)
    requires Truthy(t.details.particulars) && Truthy(t.details.reference) && Truthy(t.details.code)
    ensures Memo(t) == t.details.particulars.value + " " + t.details.reference.value + " " + t.details.code.value
  {
    var d := t.details;
    var parts := [d.particulars, d.reference, d.code];
    assert parts[1..] == [d.reference, d.code];
    assert parts[1..][1..] == [d.code];
    assert TruthyParts([d.code]) == [d.code.value] + TruthyParts([]);
    assert TruthyParts([d.reference, d.code]) == [d.reference.value] + TruthyParts([d.code]);
    var present := [d.particulars.value, d.reference.value, d.code.value];
    assert TruthyParts(parts) == present;
    assert present[1..] == [d.reference.value, d.code.value];
    assert present[1..][1..] == [d.code.value];
    assert Join(present[1..], " ") == d.reference.value + " " + d.code.value;
  }

  /** An empty or missing part leaves no extra space: with only the
      reference and code present the memo is `reference code`. */
  lemma MemoSkipsEmpty(t: Transaction)
    requires !Truthy(t.details.particulars) && Truthy(t.details.reference) && Truthy(t.details.code)
    ensures Memo(t) == t.details.reference.value + " " + t.details.code.value
  {
    var d := t.details;
    var parts := [d.particulars, d.reference, d.code];
    assert parts[1..] == [d.reference, d.code];
    assert parts[1..][1..] == [d.code];
    assert TruthyParts([d.code]) == [d.code.value] + TruthyParts([]);
    assert TruthyParts([d.reference, d.code]) == [d.reference.value] + TruthyParts([d.code]);
    assert TruthyParts(parts) == [d.reference.value, d.code.value];
  }

  /** `payee`: the other party's name when it is given (even empty), else the
      particulars when given, else the type's description. */
  function Payee(t: Transaction): (r: string)
    ensures t.holderName.Some? ==> r == t.holderName.value
    ensures t.holderName.None? && t.details.particulars.Some? ==> r == t.details.particulars.value
    ensures t.holderName.None? && t.details.particulars.None? ==> r == t.typeDescription
  {
    if t.holderName.Some? then t.holderName.value
    else if t.details.particulars.Some? then t.details.particulars.value
    else t.typeDescription
  }

  /** Without a holder name, non-empty particulars are both the payee and the
      start of the memo. */
  lemma PayeeStartsMemo(t: Transaction)
    requires t.holderName.None? && Truthy(t.details.particulars)
    ensures Payee(t) == t.details.particulars.value
    ensures |Memo(t)| >= |Payee(t)| && Memo(t)[..|Payee(t)|] == Payee(t)
  {
    var parts := [t.details.particulars, t.details.reference, t.details.code];
    assert TruthyParts(parts)[0] == t.details.particulars.value;
    JoinStartsWithFirst(TruthyParts(parts), " ");
  }

  /** An empty holder name still wins over the particulars: only a missing
      name falls through. */
  lemma EmptyHolderNameIsPayee(t: Transaction)
    requires t.holderName == Some("")
    ensures Payee(t) == ""
  {
  }

  /** `isFuture`: the transaction's local date is after today. The source
      compares the UTC midnight of the local date with the end of today in
      Pacific/Auckland; for a zone ahead of UTC that is the same test. */
  predicate IsFuture(t: Transaction, today: Date) {
    DateBefore(today, t.timestamp.date)
  }

  /** The calendar order `isFuture` uses is the order of the dates read as
      the numbers `YYYYMMDD`: a transaction is in the future exactly when
      that number exceeds today's. */
  lemma IsFutureByNumber(t: Transaction, today: Date)
    requires t.timestamp.date.month < 100 && t.timestamp.date.day < 100
    requires today.month < 100 && today.day < 100
    ensures IsFuture(t, today) <==> DateNumber(today) < DateNumber(t.timestamp.date)
  {
    var d := t.timestamp.date;
    if today.year < d.year {
      assert DateNumber(today) < (today.year + 1) * 10000 <= DateNumber(d);
    } else if d.year < today.year {
      assert DateNumber(d) < (d.year + 1) * 10000 <= DateNumber(today);
    }
  }

  /** A date read as the number `YYYYMMDD`. */
  function DateNumber(d: Date): nat {
    d.year * 10000 + d.month * 100 + d.day
  }

  /** `convert`: the transaction as the sync sees it. The date is the wall
      clock read in Pacific/Auckland; `instantOf` is that zone's calendar. */
  function Convert(t: Transaction, instantOf: WallClock -> int): (r: AccountTransaction)
    ensures r.cleared <==> t.statusCode == "POSTED"
    ensures r.dateTime.date == t.timestamp.date && r.dateTime.zone == "Pacific/Auckland"
    ensures r.notes == Some(Memo(t)) && r.payee == Payee(t) && r.amount == t.amount
    ensures r.category.None? && r.transfer.None?
  {
    AccountTransaction(
      DateTime(instantOf(t.timestamp), "Pacific/Auckland", t.timestamp.date),
      t.amount,
      Payee(t),
      Some(Memo(t)),
      !IsPending(t),
      None,
      None)
  }

  /** The transactions `exportAccount` keeps: not pending in a foreign
      currency, then not dated after today. */
  function Kept(txs: seq<Transaction>, today: Date): seq<Transaction> {
    Filter(Filter(txs, (t: Transaction) => !IsPendingInternational(t)), (t: Transaction) => !IsFuture(t, today))
  }

  /** A transaction is kept exactly when it is neither pending in a foreign
      currency nor in the future, and the kept ones stay in the bank's order. */
  lemma KeptSpec(txs: seq<Transaction>, today: Date)
    ensures forall t :: t in Kept(txs, today) <==> t in txs && !IsPendingInternational(t) && !IsFuture(t, today)
    ensures IsSubsequence(Kept(txs, today), txs)
  {
    var first := Filter(txs, (t: Transaction) => !IsPendingInternational(t));
    var kept := Kept(txs, today);
    SubsequenceTrans(kept, first, txs);
    forall t | t in txs && !IsPendingInternational(t) && !IsFuture(t, today)
      ensures t in kept
    {
      var i :| 0 <= i < |txs| && txs[i] == t;
      assert t in first;
      var j :| 0 <= j < |first| && first[j] == t;
    }
    forall t | t in kept
      ensures t in txs && !IsPendingInternational(t) && !IsFuture(t, today)
    {
      var i :| 0 <= i < |kept| && kept[i] == t;
      var j :| 0 <= j < |first| && first[j] == t;
    }
  }

  /** `accountByName`: the first account with that nickname. */
  function AccountByName(accounts: seq<Account>, name: string): (r: Option<Account>)
    ensures r.None? <==> forall i :: 0 <= i < |accounts| ==> accounts[i].nickname != name
    ensures r.Some? ==> exists i :: 0 <= i < |accounts| && accounts[i] == r.value && r.value.nickname == name
                                    && forall j :: 0 <= j < i ==> accounts[j].nickname != name
  {
    Find(accounts, (a: Account) => a.nickname == name)
  }

  /** The request of `listTransactions`: the ISO dates of the window and the
      account's API id. */
  function TransactionsPath(from: Date, to: Date, accountId: string): string {
    "/transactions?from=" + IsoDate(from) + "&to=" + IsoDate(to) + "&account=" + accountId
  }

  /** For years below 10000 the path holds the two dates at fixed places and
      ends with the account id, so each reads back from it. */
  lemma TransactionsPathShape(from: Date, to: Date, accountId: string)
    requires from.year < 10000 && from.month < 100 && from.day < 100
    requires to.year < 10000 && to.month < 100 && to.day < 100
    ensures var p := TransactionsPath(from, to, accountId);
      && |p| == 52 + |accountId|
      && p[..19] == "/transactions?from="
      && p[19..29] == IsoDate(from)
      && p[29..33] == "&to="
      && p[33..43] == IsoDate(to)
      && p[43..52] == "&account="
      && p[52..] == accountId
  {
    IsoDateShape(from);
    IsoDateShape(to);
    ConcatSlices("/transactions?from=", IsoDate(from), "&to=", IsoDate(to), "&account=", accountId);
  }

  /** `exportAccount`: look the account up by nickname, fetch its window of
      transactions (`fetch` is the API call; it fails with a cause), keep the
      ones worth importing and convert them. */
  function ExportAccount(accounts: seq<Account>, accountId: string, clock: Clock,
                         fetch: string -> Result<seq<Transaction>, string>,
                         instantOf: WallClock -> int): (r: Result<seq<AccountTransaction>, BankError>)
    ensures r == Failure(BankError(AccountNotFound, "Bnz", None))
            <==> forall i :: 0 <= i < |accounts| ==> accounts[i].nickname != accountId
    ensures r.Failure? ==> r.error.bank == "Bnz" && r.error.reason in {AccountNotFound, Unknown}
    ensures var a := AccountByName(accounts, accountId);
      a.Some? ==> var response := fetch(TransactionsPath(clock.monthAgo, clock.tomorrow, a.value.id));
        && (response.Failure? ==> r == Failure(BankError(Unknown, "Bnz", Some(response.error))))
        && (response.Success? ==> r.Success?)
  {
    match AccountByName(accounts, accountId)
    case None => Failure(BankError(AccountNotFound, "Bnz", None))
    case Some(account) =>
      match fetch(TransactionsPath(clock.monthAgo, clock.tomorrow, account.id))
      case Failure(cause) => Failure(BankError(Unknown, "Bnz", Some(cause)))
      case Success(txs) => Success(Map(Kept(txs, clock.today), (t: Transaction) => Convert(t, instantOf)))
  }

  /** A successful export asked for the first account with the nickname,
      over the window from thirty days ago to tomorrow, and holds one
      converted record per kept transaction, in the bank's order. */
  lemma ExportAccountSuccess(accounts: seq<Account>, accountId: string, clock: Clock,
                             fetch: string -> Result<seq<Transaction>, string>, instantOf: WallClock -> int)
    requires ExportAccount(accounts, accountId, clock, fetch, instantOf).Success?
    ensures var account := AccountByName(accounts, accountId);
      && account.Some?
      && var response := fetch(TransactionsPath(clock.monthAgo, clock.tomorrow, account.value.id));
      && response.Success?
      && var kept := Kept(response.value, clock.today);
      && IsSubsequence(kept, response.value)
      && (forall t :: t in kept <==> t in response.value && !IsPendingInternational(t) && !IsFuture(t, clock.today))
      && ExportAccount(accounts, accountId, clock, fetch, instantOf).value
         == Map(kept, (t: Transaction) => Convert(t, instantOf))
  {
    var account := AccountByName(accounts, accountId).value;
    var response := fetch(TransactionsPath(clock.monthAgo, clock.tomorrow, account.id));
    KeptSpec(response.value, clock.today);
  }
}
