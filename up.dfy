/** The Up provider (src/Bank/Up.ts): pages through an account's transactions
    of the last thirty days with Up's JSON:API and turns each into an
    `AccountTransaction`. Every HTTP or decoding failure is a defect: the
    provider never reports a `BankError`. */
module Up {
  import opened Wrappers
  import opened Text
  import opened Decimals
  import opened Collections
  import opened Bank
  import opened Paging
  import opened ImportIds

  /** The API's base URL; the client puts it in front of every request. */
  const ApiUrl: string := "https://api.up.com.au/api/v1"

  datatype Status = Held | Settled

  /** One Up transaction, as much of it as the provider reads. `valueInBaseUnits`
      is the amount in cents; `category` and `transferAccount` are the ids of
      the related resources, when there are any. */
  datatype Transaction = Transaction(
    status: Status,
    description: string,
    valueInBaseUnits: Decimal,
    createdAt: DateTime,
    note: Option<string>,
    category: Option<string>,
    transferAccount: Option<string>)

  /** `accountTransaction`: the amount is the base units divided by 100, and
      only a settled transaction is cleared. The sync multiplies the amount
      back by 100, so the amount it numbers is the base units unchanged. */
  function ToAccountTransaction(t: Transaction): (r: AccountTransaction)
    ensures r.cleared <==> t.status == Settled
    ensures Times100(r.amount) == t.valueInBaseUnits
    ensures r.dateTime == t.createdAt && r.payee == t.description && r.notes == t.note
    ensures r.category == t.category && r.transfer == t.transferAccount
  {
    AccountTransaction(
      t.createdAt,
      Div100(t.valueInBaseUnits),
      t.description,
      t.note,
      t.status == Settled,
      t.category,
      t.transferAccount)
  }

  /** The import-id prefix of an Up transaction is its date followed by its
      base units as JavaScript prints them. */
  lemma PrefixUsesBaseUnits(t: Transaction)
    ensures Prefix(ToAccountTransaction(t)) == DateString(t.createdAt.date) + NumberText(t.valueInBaseUnits)
  {
  }

  /** An HTTP request: a URL and its query parameters. */
  datatype Request = Request(url: string, query: seq<(string, string)>)

  /** The client's request mapping: the base URL goes in front. */
  function Prepend(r: Request): Request {
    r.(url := ApiUrl + r.url)
  }

  /** The first request for an account: its transactions since `since`. */
  function TransactionsRequest(accountId: string, since: string): Request {
    Request("/accounts/" + accountId + "/transactions", [("filter[since]", since)])
  }

  /** `getPage`'s request: without a cursor (or with an empty one) the first
      request; with one, the first request with its URL replaced by the part
      of the cursor after the base URL. A cursor that does not contain the
      base URL gives `setUrl(undefined)`, which throws. The query parameters
      of the first request are kept either way. */
  function PageRequest(first: Request, cursor: Option<string>): (r: Result<Request, string>)
    ensures !Truthy(cursor) ==> r == Success(first)
    ensures Truthy(cursor) ==> (r.Failure? <==> forall j :: !OccursAt(cursor.value, ApiUrl, j))
    ensures r.Success? ==> r.value.query == first.query
  {
    if !Truthy(cursor) then Success(first)
    else match SecondPiece(cursor.value, ApiUrl)
      case None => Failure("setUrl(undefined): the cursor is not under the API's base URL")
      case Some(path) => Success(first.(url := path))
  }

  /** A `next` link under the base URL is followed exactly: the request goes
      to that link, with the first request's query. */
  lemma NextLinkFollowed(first: Request, path: string)
    requires forall j :: !OccursAt(path, ApiUrl, j)
    ensures PageRequest(first, Some(ApiUrl + path)) == Success(Request(path, first.query))
    ensures Prepend(PageRequest(first, Some(ApiUrl + path)).value).url == ApiUrl + path
  {
    SecondPieceAfterPrefix(ApiUrl, path);
  }

  /** One decoded response: the transactions and `links.next`. */
  datatype UpPage = UpPage(data: seq<Transaction>, next: Option<string>)

  /** The page fetch behind `paginateChunkEffect`: build the request for the
      cursor, send it through the client, and decode the page. `http` is the
      client (retries included); its failures and decoding failures die. */
  function Fetcher(first: Request, http: Request -> Result<UpPage, string>): Option<string> -> Result<Page<Transaction>, string> {
    (cursor: Option<string>) =>
      match PageRequest(first, cursor)
      case Failure(e) => Failure(e)
      case Success(req) =>
        match http(Prepend(req))
        case Failure(e) => Failure(e)
        case Success(page) => Success(Page(page.data, page.next))
  }

  /** `exportAccount`: collect every page of the account's transactions since
      thirty days before `now`, and convert them in order. `formatIso` is
      `DateTime.formatIso`. `Failed` here is a defect, not a `BankError`. */
  function ExportAccount(accountId: string, now: int, formatIso: int -> string,
                         http: Request -> Result<UpPage, string>, budget: nat): (r: Collected<AccountTransaction>)
    ensures r.Complete? <==> Collect(Fetcher(TransactionsRequest(accountId, formatIso(now - ThirtyDays)), http), None, budget).Complete?
    ensures r.Failed? <==> Collect(Fetcher(TransactionsRequest(accountId, formatIso(now - ThirtyDays)), http), None, budget).Failed?
  {
    var first := TransactionsRequest(accountId, formatIso(now - ThirtyDays));
    match Collect(Fetcher(first, http), None, budget)
    case Complete(items) => Complete(Map(items, ToAccountTransaction))
    case Failed(e) => Failed(e)
    case Exhausted => Exhausted
  }

  /** A complete export first asked for the account's transactions since
      thirty days ago, then followed the `next` links page by page until a
      page had none, and holds every page's transactions converted, in page
      order. */
  lemma ExportAccountComplete(accountId: string, now: int, formatIso: int -> string,
                              http: Request -> Result<UpPage, string>, budget: nat)
    requires ExportAccount(accountId, now, formatIso, http, budget).Complete?
    ensures var first := TransactionsRequest(accountId, formatIso(now - ThirtyDays));
      var fetch := Fetcher(first, http);
      var cs := Cursors(fetch, None, budget);
      && 1 <= |cs| && cs[0] == None
      && Prepend(first) == Request(ApiUrl + "/accounts/" + accountId + "/transactions",
                                   [("filter[since]", formatIso(now - ThirtyDays))])
      && http(Prepend(first)).Success?
      && Chain(fetch, cs)
      && ExportAccount(accountId, now, formatIso, http, budget).items
         == Map(ItemsOf(fetch, cs), ToAccountTransaction)
  {
    var first := TransactionsRequest(accountId, formatIso(now - ThirtyDays));
    var fetch := Fetcher(first, http);
    CollectComplete(fetch, None, budget);
    var c := Collect(fetch, None, budget);
    assert fetch(None).Success?;
    assert PageRequest(first, None) == Success(first);
    assert ExportAccount(accountId, now, formatIso, http, budget) == Complete(Map(c.items, ToAccountTransaction));
  }

  /** The sync's own fixture, numbered: an Up amount of 200.50 base units on
      3 December 2024 gets the import-id prefix `20241203200.5`. */
  lemma BaseUnitsPrefixExample(t: Transaction)
    requires t.createdAt.date == Date(2024, 12, 3) && t.valueInBaseUnits == Decimal(20050, 2)
    ensures Prefix(ToAccountTransaction(t)) == "20241203200.5"
  {
    PrefixUsesBaseUnits(t);
    FixtureDate();
    FixtureAmount();
    FixtureConcat();
  }

  lemma FixtureConcat()
    ensures "20241203" + "200.5" == "20241203200.5"
  {
  }

  lemma FixtureDate()
    ensures DateString(Date(2024, 12, 3)) == "20241203"
  {
    assert NatToString(2) == "2";
    assert NatToString(20) == "20";
    assert NatToString(202) == "202";
    assert NatToString(2024) == "2024";
    assert NatToString(1) == "1";
    assert NatToString(12) == "12";
    assert NatToString(3) == "3";
    assert PadStart("3", 2, '0') == Repeat('0', 1) + "3" == "03";
  }

  lemma FixtureAmount()
    ensures NumberText(Decimal(20050, 2)) == "200.5"
  {
    FixtureNormalized();
    FixtureNormalText();
  }

  lemma FixtureNormalized()
    ensures Normalize(Decimal(20050, 2)) == Decimal(2005, 1)
  {
    assert Normalize(Decimal(2005, 1)) == Decimal(2005, 1);
  }

  lemma FixtureNormalText()
    ensures NormalText(Decimal(2005, 1)) == "200.5"
  {
    assert Pow10(1) == 10;
    assert 2005 / 10 == 200 && 2005 % 10 == 5;
    FixtureDigits();
    assert PadStart("5", 1, '0') == "5";
  }

  lemma FixtureDigits()
    ensures NatToString(200) == "200" && NatToString(5) == "5"
  {
    assert NatToString(2) == "2";
    assert NatToString(20) == "20";
  }
}
