/** The Akahu provider (src/Bank/Akahu.ts): asks Akahu to refresh, waits (a
    bounded number of tries) for the accounts' refresh time to move, and
    exports an account as its pending and posted transactions of the last
    thirty days, merged. */
module Akahu {
  import opened Wrappers
  import opened Decimals
  import opened Collections
  import opened Bank
  import opened Paging
  import opened ImportIds

  /** One try and five retries of the refresh check. */
  const Attempts: nat := 6

  /** A posted transaction: `date` is its instant (milliseconds since the
      epoch); `merchant` and `category` are the names of the optional merchant
      and category objects. */
  datatype Transaction = Transaction(
    id: string,
    date: int,
    description: string,
    amount: Decimal,
    merchant: Option<string>,
    category: Option<string>)

  /** A pending transaction: no id, merchant or category. */
  datatype PendingTransaction = PendingTransaction(date: int, description: string, amount: Decimal)

  /** `Transaction.accountTransaction`: cleared, the description as notes,
      the merchant's name (when there is a merchant) as payee, and the
      category's name. */
  function Posted(t: Transaction, zone: TimeZone): (r: AccountTransaction)
    ensures r.cleared
    ensures r.notes == Some(t.description) && r.category == t.category && r.transfer.None?
    ensures t.merchant.Some? ==> r.payee == t.merchant.value
    ensures t.merchant.None? ==> r.payee == t.description
    ensures r.amount == t.amount && r.dateTime.instant == t.date
    ensures r.dateTime.zone == zone.name && r.dateTime.date == zone.dateAt(t.date)
  {
    AccountTransaction(SetZone(t.date, zone), t.amount, t.merchant.GetOr(t.description),
                       Some(t.description), true, t.category, None)
  }

  /** `PendingTransaction.accountTransaction`: not cleared, the description
      as payee, no notes and no category. */
  function Pending(p: PendingTransaction, zone: TimeZone): (r: AccountTransaction)
    ensures !r.cleared
    ensures r.payee == p.description && r.notes.None? && r.category.None? && r.transfer.None?
    ensures r.amount == p.amount && r.dateTime.instant == p.date
    ensures r.dateTime.zone == zone.name && r.dateTime.date == zone.dateAt(p.date)
  {
    AccountTransaction(SetZone(p.date, zone), p.amount, p.description, None, false, None, None)
  }

  /** A pending transaction and the posted one it becomes (same instant, same
      amount) number under the same import-id prefix, the first not cleared
      and the second cleared. */
  lemma SettlingKeepsPrefix(p: PendingTransaction, t: Transaction, zone: TimeZone)
    requires p.date == t.date && p.amount == t.amount
    ensures Prefix(Pending(p, zone)) == Prefix(Posted(t, zone))
    ensures !Pending(p, zone).cleared && Posted(t, zone).cleared
  {
  }

  /** The zone the layer converts in: the current time zone when one is
      provided, else Pacific/Auckland (whose calendar is `auckland`). */
  function ResolveZone(current: Option<TimeZone>, auckland: int -> Date): (z: TimeZone)
    ensures current.Some? ==> z == current.value
    ensures current.None? ==> z.name == "Pacific/Auckland" && z.dateAt == auckland
  {
    current.GetOr(TimeZone("Pacific/Auckland", auckland))
  }

  /** The optional `cursor` object of a listing response. */
  datatype Cursor = Cursor(next: Option<string>)

  /** One listing response. */
  datatype Response<T> = Response(success: bool, items: seq<T>, cursor: Option<Cursor>)

  /** The page the stream sees: the items, and `cursor?.next` unless it is
      null or missing. The `success` flag is not consulted. */
  function ToPage<T>(resp: Response<T>): (p: Page<T>)
    ensures p.items == resp.items
    ensures p.next.Some? <==> resp.cursor.Some? && resp.cursor.value.next.Some?
    ensures p.next.Some? ==> p.next == resp.cursor.value.next
  {
    Page(resp.items, if resp.cursor.Some? then resp.cursor.value.next else None)
  }

  /** A listing request: the endpoint's path, the `start` instant, whether
      amounts are asked as numbers, and the cursor. */
  datatype Query = Query(path: string, start: int, amountAsNumber: bool, cursor: Option<string>)

  function PendingPath(accountId: string): string {
    "/accounts/" + accountId + "/transactions/pending"
  }

  function PostedPath(accountId: string): string {
    "/accounts/" + accountId + "/transactions"
  }

  /** The page fetch behind `stream`: call the endpoint with the cursor and
      read the response as a page. `api` is the HTTP client (retries
      included). */
  function PageFetch<T>(api: Query -> Result<Response<T>, string>, path: string, start: int, amountAsNumber: bool)
    : Option<string> -> Result<Page<T>, string>
  {
    (cursor: Option<string>) =>
      match api(Query(path, start, amountAsNumber, cursor))
      case Failure(e) => Failure(e)
      case Success(resp) => Success(ToPage(resp))
  }

  /** The account's pending transactions since `start`. */
  function PendingStream(accountId: string, start: int, api: Query -> Result<Response<PendingTransaction>, string>,
                         budget: nat): Collected<PendingTransaction> {
    Collect(PageFetch(api, PendingPath(accountId), start, true), None, budget)
  }

  /** The account's posted transactions since `start`. */
  function PostedStream(accountId: string, start: int, api: Query -> Result<Response<Transaction>, string>,
                        budget: nat): Collected<Transaction> {
    Collect(PageFetch(api, PostedPath(accountId), start, false), None, budget)
  }

  /** An element of the merged stream. */
  datatype Item = PendingItem(pending: PendingTransaction) | PostedItem(posted: Transaction)

  function AsPending(p: PendingTransaction): Item {
    PendingItem(p)
  }

  function AsPosted(t: Transaction): Item {
    PostedItem(t)
  }

  /** Each element's own `accountTransaction`. */
  function Convert(item: Item, zone: TimeZone): AccountTransaction {
    match item
    case PendingItem(p) => Pending(p, zone)
    case PostedItem(t) => Posted(t, zone)
  }

  function ConvertAll(items: seq<Item>, zone: TimeZone): (r: seq<AccountTransaction>)
    ensures |r| == |items|
    ensures forall i :: 0 <= i < |items| ==> r[i] == Convert(items[i], zone)
  {
    seq(|items|, i requires 0 <= i < |items| => Convert(items[i], zone))
  }

  /** What `exportAccount` yields: the transactions, a `BankError`, or
      `Unfinished` when a listing ran past the page budget (the source would
      keep paging). */
  datatype Export = Exported(txs: seq<AccountTransaction>) | ExportFailed(error: BankError) | Unfinished

  /** `exportAccount`: both listings since thirty days before `now`, merged
      (`picks` is the order the merge happened to take them in), collected
      and converted. A failure of either listing becomes an `Unknown`
      `BankError` of Akahu carrying the cause. */
  function ExportAccount(accountId: string, now: int, zone: TimeZone,
                         pendingApi: Query -> Result<Response<PendingTransaction>, string>,
                         postedApi: Query -> Result<Response<Transaction>, string>,
                         picks: seq<bool>, budget: nat): (r: Export)
    ensures var pending := PendingStream(accountId, now - ThirtyDays, pendingApi, budget);
      var posted := PostedStream(accountId, now - ThirtyDays, postedApi, budget);
      && (r.ExportFailed? <==> pending.Failed? || posted.Failed?)
      && (r.ExportFailed? ==>
            && r.error.reason == Unknown && r.error.bank == "Akahu" && r.error.cause.Some?
            && ((pending.Failed? && r.error.cause.value == pending.cause)
                || (posted.Failed? && r.error.cause.value == posted.cause)))
      && (r.Exported? <==> pending.Complete? && posted.Complete?)
  {
    var start := now - ThirtyDays;
    var pending := PendingStream(accountId, start, pendingApi, budget);
    var posted := PostedStream(accountId, start, postedApi, budget);
    if pending.Failed? then ExportFailed(BankError(Unknown, "Akahu", Some(pending.cause)))
    else if posted.Failed? then ExportFailed(BankError(Unknown, "Akahu", Some(posted.cause)))
    else if pending.Exhausted? || posted.Exhausted? then Unfinished
    else Exported(ConvertAll(Interleave(Map(pending.items, AsPending), Map(posted.items, AsPosted), picks), zone))
  }

  /** An export holds exactly the pending and the posted transactions, each
      side in the order Akahu listed it; the cleared ones are exactly the
      posted ones. */
  lemma ExportAccountExported(accountId: string, now: int, zone: TimeZone,
                              pendingApi: Query -> Result<Response<PendingTransaction>, string>,
                              postedApi: Query -> Result<Response<Transaction>, string>,
                              picks: seq<bool>, budget: nat)
    requires ExportAccount(accountId, now, zone, pendingApi, postedApi, picks, budget).Exported?
    ensures var ps := Map(PendingStream(accountId, now - ThirtyDays, pendingApi, budget).items, AsPending);
      var ts := Map(PostedStream(accountId, now - ThirtyDays, postedApi, budget).items, AsPosted);
      var merged := Interleave(ps, ts, picks);
      var txs := ExportAccount(accountId, now, zone, pendingApi, postedApi, picks, budget).txs;
      && multiset(merged) == multiset(ps) + multiset(ts)
      && IsSubsequence(ps, merged) && IsSubsequence(ts, merged)
      && txs == ConvertAll(merged, zone)
      && |txs| == |ps| + |ts|
      && forall i :: 0 <= i < |txs| ==> (txs[i].cleared <==> merged[i].PostedItem?)
  {
    var ps := Map(PendingStream(accountId, now - ThirtyDays, pendingApi, budget).items, AsPending);
    var ts := Map(PostedStream(accountId, now - ThirtyDays, postedApi, budget).items, AsPosted);
    InterleaveKeepsOrder(ps, ts, picks);
  }

  /** An account as the listing returns it; `refreshed` is
      `refreshed.transactions`, which the API may leave out. */
  datatype Account = Account(id: string, name: string, refreshed: Option<int>)

  /** Decoding `refreshed.transactions`: a missing time decodes as the time
      of decoding, `now`. */
  function DecodeRefreshed(raw: Option<int>, now: int): (r: int)
    ensures raw.Some? ==> r == raw.value
    ensures raw.None? ==> r == now
  {
    raw.GetOr(now)
  }

  /** The fold of `lastRefreshed`: the earliest time seen, starting from
      `acc`. */
  function MinFold(acc: Option<int>, xs: seq<int>): (r: Option<int>)
    ensures r.None? <==> acc.None? && xs == []
    ensures r.Some? ==> r.value in xs || acc == Some(r.value)
    ensures r.Some? ==> (forall x :: x in xs ==> r.value <= x) && (acc.Some? ==> r.value <= acc.value)
    decreases |xs|
  {
    if xs == [] then acc
    else
      var m := if acc.None? || xs[0] < acc.value then xs[0] else acc.value;
      assert forall x :: x in xs ==> x == xs[0] || x in xs[1..];
      MinFold(Some(m), xs[1..])
  }

  /** `lastRefreshed`: the earliest decoded refresh time over all accounts;
      `now` is the time the listing is decoded. With no accounts, or when the
      listing fails, the effect dies (`Failure`). */
  function LastRefreshed(accountsApi: Option<string> -> Result<Response<Account>, string>, now: int, budget: nat): (r: Result<int, string>)
    ensures var listed := Collect((c: Option<string>) => match accountsApi(c)
                                    case Failure(e) => Failure(e)
                                    case Success(resp) => Success(ToPage(resp)), None, budget);
      && (r.Success? <==> listed.Complete? && listed.items != [])
      && (r.Success? ==> (exists i :: 0 <= i < |listed.items| && DecodeRefreshed(listed.items[i].refreshed, now) == r.value)
                         && forall i :: 0 <= i < |listed.items| ==> r.value <= DecodeRefreshed(listed.items[i].refreshed, now))
  {
    var fetch := (c: Option<string>) => match accountsApi(c)
                   case Failure(e) => Failure(e)
                   case Success(resp) => Success(ToPage(resp));
    match Collect(fetch, None, budget)
    case Failed(e) => Failure(e)
    case Exhausted => Failure("the page budget ran out")
    case Complete(accounts) =>
      var times := Map(accounts, (a: Account) => DecodeRefreshed(a.refreshed, now));
      match MinFold(None, times)
      case None => Failure("NoSuchElementError")
      case Some(t) =>
        assert forall i :: 0 <= i < |accounts| ==> times[i] in times;
        Success(t)
  }

  /** The outcome of the refresh check, which is never a failure: either a
      try found the refresh time at or after the one before the refresh, or
      every try was stale (the error is logged), or a try died (the defect is
      logged and not retried). */
  datatype RefreshCheck = Refreshed(attempts: nat) | StillStale | CheckDied(defect: string)

  /** Try `k` read a refresh time still before `before`. */
  predicate StaleAt(polls: nat -> Result<int, string>, before: int, k: nat) {
    polls(k).Success? && polls(k).value < before
  }

  /** The check from try `k` on; `polls(k)` is what `lastRefreshed` gave on
      try `k`. */
  function CheckFrom(before: int, polls: nat -> Result<int, string>, k: nat): RefreshCheck
    decreases Attempts - k
  {
    if k >= Attempts then StillStale
    else match polls(k)
      case Failure(d) => CheckDied(d)
      case Success(t) => if t >= before then Refreshed(k + 1) else CheckFrom(before, polls, k + 1)
  }

  /** The check passes on the first try that sees the refresh time at or
      after `before`, only after stale tries; it gives up stale after six
      stale tries; it stops at the first try that dies. */
  lemma {:induction false} CheckFromSpec(before: int, polls: nat -> Result<int, string>, k: nat)
    requires k <= Attempts
    requires forall j :: 0 <= j < k ==> StaleAt(polls, before, j)
    ensures var r := CheckFrom(before, polls, k);
      && (r.Refreshed? ==> k < r.attempts <= Attempts && polls(r.attempts - 1).Success?
                           && polls(r.attempts - 1).value >= before
                           && forall j :: 0 <= j < r.attempts - 1 ==> StaleAt(polls, before, j))
      && (r.StillStale? <==> forall j :: 0 <= j < Attempts ==> StaleAt(polls, before, j))
      && (r.CheckDied? ==> exists j :: k <= j < Attempts && polls(j) == Failure(r.defect)
                                       && forall i :: 0 <= i < j ==> StaleAt(polls, before, i))
    decreases Attempts - k
  {
    if k < Attempts && StaleAt(polls, before, k) {
      CheckFromSpec(before, polls, k + 1);
    } else if k < Attempts {
      assert !StaleAt(polls, before, k);
    }
  }

  /** The retried check of the layer: read the refresh time up to six times
      until it is at or after `before`. */
  method AwaitRefresh(before: int, polls: nat -> Result<int, string>) returns (r: RefreshCheck)
    ensures r == CheckFrom(before, polls, 0)
  {
    var k := 0;
    while k < Attempts
      invariant 0 <= k <= Attempts
      invariant CheckFrom(before, polls, 0) == CheckFrom(before, polls, k)
      decreases Attempts - k
    {
      match polls(k)
      case Failure(d) =>
        return CheckDied(d);
      case Success(t) =>
        if t >= before {
          return Refreshed(k + 1);
        }
      k := k + 1;
    }
    return StillStale;
  }

  /** Building the layer: the zone is resolved, the refresh time is read
      (dies on failure), the refresh is requested (fails on failure), and the
      check runs, which cannot fail the layer. */
  datatype Layer = Built(zone: TimeZone, check: RefreshCheck) | LayerDied(defect: string) | LayerFailed(error: string)

  method BuildLayer(current: Option<TimeZone>, auckland: int -> Date, before: Result<int, string>,
                    refresh: Result<(), string>, polls: nat -> Result<int, string>) returns (l: Layer)
    ensures l.LayerDied? <==> before.Failure?
    ensures l.LayerFailed? <==> before.Success? && refresh.Failure?
    ensures l.Built? ==> l.zone == ResolveZone(current, auckland) && l.check == CheckFrom(before.value, polls, 0)
  {
    var zone := ResolveZone(current, auckland);
    if before.Failure? {
      return LayerDied(before.error);
    }
    if refresh.Failure? {
      return LayerFailed(refresh.error);
    }
    var check := AwaitRefresh(before.value, polls);
    l := Built(zone, check);
  }
}
