/**
 * The pagination shared by the campaign and user listings
 * (src/controllers/campaignController.js, src/controllers/userController.js):
 * `page` defaults to 1 and `limit` to 10, the query skips `(page - 1) * limit`
 * documents and returns at most `limit`, and the reply reports
 * `pages = Math.ceil(total / limit)`.
 *
 * The documents are given in the listing's sort order: the database applies
 * the sort before skip and limit whatever order the cursor calls are
 * written in. As the database does, a limit of 0 means "no limit", a
 * negative limit returns at most its absolute value, and a negative skip
 * is an error.
 */
module Paging {
  import opened Wrappers

  const DefaultPage: int := 1
  const DefaultLimit: int := 10

  /** The request's `page` and `limit`, with the defaults the destructuring supplies. */
  datatype PageRequest = PageRequest(page: int, limit: int)

  function Requested(page: Option<int>, limit: Option<int>): (r: PageRequest)
    ensures page.None? ==> r.page == 1
    ensures limit.None? ==> r.limit == 10
    ensures page.Some? ==> r.page == page.value
    ensures limit.Some? ==> r.limit == limit.value
  {
    PageRequest(page.GetOr(DefaultPage), limit.GetOr(DefaultLimit))
  }

  /** JavaScript truthiness of an optional query-string parameter: present and not empty. */
  predicate Given(s: Option<string>) {
    s.Some? && s.value != ""
  }

  /** The documents a `find` query selects, in the listing's order. */
  function Filter<T>(items: seq<T>, selects: T -> bool): (r: seq<T>)
    ensures |r| <= |items|
    ensures forall k :: 0 <= k < |r| ==> r[k] in items && selects(r[k])
    ensures forall i :: 0 <= i < |items| && selects(items[i]) ==> items[i] in r
  {
    if items == [] then []
    else (if selects(items[0]) then [items[0]] else []) + Filter(items[1..], selects)
  }

  /** A filter that keeps everything is the identity. */
  lemma {:induction false} FilterAll<T>(items: seq<T>, keep: T -> bool)
    requires forall x :: keep(x)
    ensures Filter(items, keep) == items
  {
    if items != [] {
      FilterAll(items[1..], keep);
      assert [items[0]] + items[1..] == items;
    }
  }

  /** A filter that keeps nothing gives nothing. */
  lemma {:induction false} FilterNone<T>(items: seq<T>, keep: T -> bool)
    requires forall x :: !keep(x)
    ensures Filter(items, keep) == []
  {
    if items != [] {
      FilterNone(items[1..], keep);
    }
  }

  /** Filters with the same verdict everywhere select the same documents. */
  lemma {:induction false} FilterSame<T>(items: seq<T>, f: T -> bool, g: T -> bool)
    requires forall x :: f(x) == g(x)
    ensures Filter(items, f) == Filter(items, g)
  {
    if items != [] {
      FilterSame(items[1..], f, g);
    }
  }

  /** A filter keeps a single document exactly when it selects it. */
  lemma FilterSingleton<T>(x: T, selects: T -> bool)
    ensures Filter([x], selects) == if selects(x) then [x] else []
  {
    assert [x][1..] == [];
  }

  /**
   * Filtering distributes over concatenation. With `FilterSingleton` this
   * fixes the result completely: the selected documents, each once, in the
   * order of the input.
   */
  lemma {:induction false} FilterAppend<T>(a: seq<T>, b: seq<T>, selects: T -> bool)
    ensures Filter(a + b, selects) == Filter(a, selects) + Filter(b, selects)
  {
    if a == [] {
      assert a + b == b;
    } else {
      assert (a + b)[1..] == a[1..] + b;
      FilterAppend(a[1..], b, selects);
    }
  }

  /** A negative skip is refused by the database and reaches the error handler. */
  datatype PagingError = NegativeSkip

  function Skip(r: PageRequest): int {
    (r.page - 1) * r.limit
  }

  function Abs(x: int): nat {
    if x < 0 then -x else x
  }

  /** The documents of one page: skip, then keep at most `|limit|` (all when the limit is 0). */
  function Page<T>(items: seq<T>, r: PageRequest): (result: Result<seq<T>, PagingError>)
    ensures result.Failure? <==> Skip(r) < 0
    ensures result.Success? && r.limit != 0 ==> |result.value| <= Abs(r.limit)
    ensures result.Success? && Skip(r) < |items| && r.limit != 0 ==>
      |result.value| == if Skip(r) + Abs(r.limit) <= |items| then Abs(r.limit) else |items| - Skip(r)
    ensures result.Success? && r.limit == 0 ==> result.value == if Skip(r) < |items| then items[Skip(r)..] else []
    ensures result.Success? && Skip(r) >= |items| ==> result.value == []
    ensures result.Success? ==>
      forall k :: 0 <= k < |result.value| ==> Skip(r) + k < |items| && result.value[k] == items[Skip(r) + k]
  {
    var skip := Skip(r);
    if skip < 0 then Failure(NegativeSkip)
    else
      var rest := if skip < |items| then items[skip..] else [];
      if r.limit == 0 || |rest| <= Abs(r.limit) then Success(rest)
      else Success(rest[..Abs(r.limit)])
  }

  /**
   * `Math.ceil(total / limit)`; None stands for the `null` that JSON makes
   * of `Infinity` and `NaN` when the limit is 0.
   */
  function PageCount(total: nat, limit: int): (pages: Option<int>)
    ensures pages.None? <==> limit == 0
    ensures limit > 0 ==> pages.value >= 0 && total <= pages.value * limit
    ensures limit > 0 && total > 0 ==> (pages.value - 1) * limit < total
    ensures limit > 0 && total == 0 ==> pages.value == 0
    ensures limit < 0 ==> pages.value <= 0
  {
    if limit == 0 then None
    else if limit > 0 then Some((total + limit - 1) / limit)
    else Some(-(total / -limit))
  }

  /**
   * Every document of the listing is on the page the count promises: the
   * document at position `i` is the `(i % limit)`-th of page `i / limit + 1`.
   */
  lemma EveryItemOnItsPage<T>(items: seq<T>, limit: int, i: int)
    requires limit > 0 && 0 <= i < |items|
    ensures Page(items, PageRequest(i / limit + 1, limit)).Success?
    ensures var page := Page(items, PageRequest(i / limit + 1, limit)).value;
      i % limit < |page| && page[i % limit] == items[i]
  {
    var q, m := i / limit, i % limit;
    assert i == q * limit + m && 0 <= m < limit;
    assert Skip(PageRequest(q + 1, limit)) == q * limit;
  }

  /** ... and that page is one of the `PageCount` pages the reply announces. */
  lemma ItemPageWithinCount(total: nat, limit: int, i: int)
    requires limit > 0 && 0 <= i < total
    ensures 1 <= i / limit + 1 <= PageCount(total, limit).value
  {
    var q := i / limit;
    assert q * limit <= i;
    var pages := PageCount(total, limit).value;
    if pages <= q {
      MulMonotone(pages, q, limit);
    }
  }

  lemma MulMonotone(a: int, b: int, k: nat)
    requires a <= b
    ensures a * k <= b * k
  {
  }

  /** Pages after the last one are empty. */
  lemma PagesBeyondCountAreEmpty<T>(items: seq<T>, r: PageRequest)
    requires r.limit > 0 && r.page > PageCount(|items|, r.limit).value
    ensures Page(items, r) == Success([])
  {
    var pages := PageCount(|items|, r.limit).value;
    MulMonotone(pages, r.page - 1, r.limit);
  }

  /** The reply of a listing: one page of documents and the pagination block. */
  datatype Listing<T> = Listing(items: seq<T>, page: int, limit: int, total: nat, pages: Option<int>)

  /**
   * A paginated listing: the page of the selected documents, the number of
   * selected documents (`countDocuments` with the same query) and the page count.
   */
  function List<T>(all: seq<T>, selects: T -> bool, r: PageRequest): (res: Result<Listing<T>, PagingError>)
    ensures res.Failure? <==> Skip(r) < 0
    ensures res.Success? ==>
      && res.value.total == |Filter(all, selects)|
      && res.value.pages == PageCount(|Filter(all, selects)|, r.limit)
      && res.value.page == r.page && res.value.limit == r.limit
      && (r.limit != 0 ==> |res.value.items| <= Abs(r.limit))
      && Page(Filter(all, selects), r) == Success(res.value.items)
      && forall k :: 0 <= k < |res.value.items| ==> res.value.items[k] in all && selects(res.value.items[k])
  {
    var selected := Filter(all, selects);
    match Page(selected, r)
    case Failure(e) => Failure(e)
    case Success(items) =>
      assert forall k :: 0 <= k < |items| ==> items[k] == selected[Skip(r) + k];
      Success(Listing(items, r.page, r.limit, |selected|, PageCount(|selected|, r.limit)))
  }
}
