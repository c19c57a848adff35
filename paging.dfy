/** Cursor pagination as both HTTP providers use it: request a page, emit its
    items, and request the next page with the cursor the page carries, until a
    page carries none (`Stream.paginate` over an HTTP client). */
module Paging {
  import opened Wrappers
  import opened Collections

  /** One response: its items and the cursor of the following page, if any. */
  datatype Page<T> = Page(items: seq<T>, next: Option<string>)

  /** The outcome of draining the stream: every item, the first failure, or
      `Exhausted` when the page budget ran out first (the source would keep
      paging). */
  datatype Collected<T> = Complete(items: seq<T>) | Failed(cause: string) | Exhausted

  /** Drains the stream starting at `cursor` (`None` is the first request);
      `fetch` is the provider's request for one page. */
  function Collect<T>(fetch: Option<string> -> Result<Page<T>, string>, cursor: Option<string>, budget: nat): Collected<T>
    decreases budget
  {
    if budget == 0 then Exhausted
    else match fetch(cursor)
      case Failure(e) => Failed(e)
      case Success(page) =>
        if page.next.None? then Complete(page.items)
        else match Collect(fetch, page.next, budget - 1)
          case Complete(rest) => Complete(page.items + rest)
          case other => other
  }

  /** The cursors of the requests `Collect` issues, in order. */
  function Cursors<T>(fetch: Option<string> -> Result<Page<T>, string>, cursor: Option<string>, budget: nat): seq<Option<string>>
    decreases budget
  {
    if budget == 0 then []
    else match fetch(cursor)
      case Failure(_) => [cursor]
      case Success(page) =>
        if page.next.None? then [cursor] else [cursor] + Cursors(fetch, page.next, budget - 1)
  }

  /** The items of the pages fetched for the given cursors, in order. */
  function ItemsOf<T>(fetch: Option<string> -> Result<Page<T>, string>, cs: seq<Option<string>>): seq<T>
    decreases |cs|
  {
    if cs == [] then []
    else (match fetch(cs[0]) case Success(p) => p.items case Failure(_) => []) + ItemsOf(fetch, cs[1..])
  }

  /** Fetched pages form a chain: each request after the first uses the cursor
      the previous page carried, and only the last page carries none. */
  ghost predicate Chain<T>(fetch: Option<string> -> Result<Page<T>, string>, cs: seq<Option<string>>) {
    && (forall i :: 0 <= i < |cs| ==> fetch(cs[i]).Success?)
    && (forall i :: 0 <= i < |cs| - 1 ==> fetch(cs[i]).value.next.Some? && cs[i + 1] == fetch(cs[i]).value.next)
    && (|cs| > 0 ==> fetch(cs[|cs| - 1]).value.next.None?)
  }

  /** A stream that completes started at `cursor`, followed the cursors page by
      page, stopped at the first page without one, and emitted every page's
      items in page order. */
  lemma {:induction false} CollectComplete<T>(fetch: Option<string> -> Result<Page<T>, string>, cursor: Option<string>, budget: nat)
    requires Collect(fetch, cursor, budget).Complete?
    ensures var cs := Cursors(fetch, cursor, budget);
      && 1 <= |cs| <= budget && cs[0] == cursor
      && Chain(fetch, cs)
      && Collect(fetch, cursor, budget).items == ItemsOf(fetch, cs)
    decreases budget
  {
    var page := fetch(cursor).value;
    var cs := Cursors(fetch, cursor, budget);
    if page.next.None? {
      assert cs == [cursor];
      assert ItemsOf(fetch, cs) == page.items + ItemsOf(fetch, []);
    } else {
      var tail := Cursors(fetch, page.next, budget - 1);
      CollectComplete(fetch, page.next, budget - 1);
      assert cs == [cursor] + tail;
      ChainCons(fetch, cursor, tail);
      ItemsOfCons(fetch, cursor, tail);
    }
  }

  /** A page whose cursor leads to the start of a chain extends it. */
  lemma ChainCons<T>(fetch: Option<string> -> Result<Page<T>, string>, c: Option<string>, tail: seq<Option<string>>)
    requires fetch(c).Success? && fetch(c).value.next.Some?
    requires |tail| >= 1 && tail[0] == fetch(c).value.next && Chain(fetch, tail)
    ensures Chain(fetch, [c] + tail)
  {
    var cs := [c] + tail;
    forall i | 0 <= i < |cs| - 1
      ensures fetch(cs[i]).value.next.Some? && cs[i + 1] == fetch(cs[i]).value.next
    {
      if i > 0 {
        assert cs[i] == tail[i - 1] && cs[i + 1] == tail[i];
      }
    }
  }

  /** The items of a successful first page come before the others. */
  lemma ItemsOfCons<T>(fetch: Option<string> -> Result<Page<T>, string>, c: Option<string>, tail: seq<Option<string>>)
    requires fetch(c).Success?
    ensures ItemsOf(fetch, [c] + tail) == fetch(c).value.items + ItemsOf(fetch, tail)
  {
    assert ([c] + tail)[1..] == tail;
  }

  /** The page budget runs out only after `budget` requests, each of which
      succeeded with a page that carried the next request's cursor; no budget
      means no request at all. */
  lemma {:induction false} CollectExhausted<T>(fetch: Option<string> -> Result<Page<T>, string>, cursor: Option<string>, budget: nat)
    requires Collect(fetch, cursor, budget).Exhausted?
    ensures var cs := Cursors(fetch, cursor, budget);
      && |cs| == budget && (budget > 0 ==> cs[0] == cursor)
      && forall i :: 0 <= i < |cs| ==> fetch(cs[i]).Success? && fetch(cs[i]).value.next.Some?
                                       && (i + 1 < |cs| ==> cs[i + 1] == fetch(cs[i]).value.next)
    decreases budget
  {
    if budget > 0 {
      var page := fetch(cursor).value;
      var tail := Cursors(fetch, page.next, budget - 1);
      CollectExhausted(fetch, page.next, budget - 1);
      var cs := Cursors(fetch, cursor, budget);
      assert cs == [cursor] + tail;
      forall i | 0 <= i < |cs|
        ensures fetch(cs[i]).Success? && fetch(cs[i]).value.next.Some?
                && (i + 1 < |cs| ==> cs[i + 1] == fetch(cs[i]).value.next)
      {
        if i > 0 {
          assert cs[i] == tail[i - 1];
          if i + 1 < |cs| {
            assert cs[i + 1] == tail[i];
          }
        }
      }
    }
  }

  /** A stream that fails failed on its last request, after a chain of pages
      that each carried a cursor. */
  lemma {:induction false} CollectFailed<T>(fetch: Option<string> -> Result<Page<T>, string>, cursor: Option<string>, budget: nat)
    requires Collect(fetch, cursor, budget).Failed?
    ensures var cs := Cursors(fetch, cursor, budget);
      && 1 <= |cs| <= budget && cs[0] == cursor
      && fetch(cs[|cs| - 1]) == Failure(Collect(fetch, cursor, budget).cause)
      && forall i :: 0 <= i < |cs| - 1 ==> fetch(cs[i]).Success? && fetch(cs[i]).value.next == cs[i + 1]
    decreases budget
  {
    if fetch(cursor).Success? {
      var page := fetch(cursor).value;
      var tail := Cursors(fetch, page.next, budget - 1);
      CollectFailed(fetch, page.next, budget - 1);
      var cs := Cursors(fetch, cursor, budget);
      assert cs == [cursor] + tail;
      forall i | 0 <= i < |cs| - 1
        ensures fetch(cs[i]).Success? && fetch(cs[i]).value.next == cs[i + 1]
      {
        if i > 0 {
          assert cs[i] == tail[i - 1] && cs[i + 1] == tail[i];
        }
      }
    }
  }
}
