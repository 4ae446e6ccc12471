/**
 * The customer's order history (Config/static/js/client_orders.js): the
 * pagination bar `renderPagination` builds in a loop, the cleaning of the
 * filter form, the query `loadOrders` sends with the page state it keeps,
 * and the status class. The bar is modelled as its buttons rather than as
 * HTML text.
 */
module ClientOrders {
  import opened Common
  import opened Text

  /** The `pagination` object of `/client/orders-data`. */
  datatype Pagination = Pagination(page: int, pages: int, hasPrev: bool, hasNext: bool)

  datatype PageButton = PageButton(number: int, active: bool)

  /** The bar: whether the arrows are enabled, and the numbered buttons between them. */
  datatype PaginationBar = PaginationBar(prevEnabled: bool, buttons: seq<PageButton>, nextEnabled: bool)

  function Max(a: int, b: int): int { if a >= b then a else b }
  function Min(a: int, b: int): int { if a <= b then a else b }

  /** The page numbers from `max(1, page - 2)` to `min(pages, page + 2)`. */
  function PageWindow(page: int, pages: int): (w: seq<int>)
    ensures |w| <= 5
    ensures forall i :: 0 <= i < |w| ==> 1 <= w[i] <= pages && page - 2 <= w[i] <= page + 2
    ensures forall i :: 0 <= i < |w| ==> w[i] == Max(1, page - 2) + i
    ensures forall i, j :: 0 <= i < j < |w| ==> w[i] < w[j]
  {
    var start, end := Max(1, page - 2), Min(pages, page + 2);
    if start > end then [] else seq(end - start + 1, i requires 0 <= i <= end - start => start + i)
  }

  /** The bar `renderPagination` describes; nothing when there is at most one page. */
  function Bar(p: Pagination): (r: Option<PaginationBar>)
    ensures r.None? <==> p.pages <= 1
    ensures r.Some? ==> r.value.prevEnabled == p.hasPrev && r.value.nextEnabled == p.hasNext
    ensures r.Some? ==> |r.value.buttons| == |PageWindow(p.page, p.pages)|
  {
    if p.pages <= 1 then None
    else
      var w := PageWindow(p.page, p.pages);
      Some(PaginationBar(p.hasPrev, seq(|w|, i requires 0 <= i < |w| => PageButton(w[i], w[i] == p.page)), p.hasNext))
  }

  /**
   * For a page within range, the bar shows the current page, as the only
   * active button, together with up to two neighbours on each side, all in
   * increasing order.
   */
  lemma BarShowsCurrentPage(p: Pagination)
    requires 1 <= p.page <= p.pages && p.pages > 1
    ensures var b := Bar(p).value.buttons;
      && 1 <= |b| <= 5
      && (exists i :: 0 <= i < |b| && b[i] == PageButton(p.page, true))
      && (forall i :: 0 <= i < |b| && b[i].active ==> b[i].number == p.page)
      && (forall i, j :: 0 <= i < j < |b| ==> b[i].number < b[j].number)
      && |b| == Min(p.pages, p.page + 2) - Max(1, p.page - 2) + 1
  {
    var b := Bar(p).value.buttons;
    var k := p.page - Max(1, p.page - 2);
    assert 0 <= k < |b|;
    assert b[k] == PageButton(p.page, true);
  }

  /** `renderPagination`: the numbered buttons are appended one by one. */
  method RenderPagination(p: Pagination) returns (r: Option<PaginationBar>)
    ensures r == Bar(p)
  {
    if p.pages <= 1 {
      return None;
    }
    var startPage := Max(1, p.page - 2);
    var endPage := Min(p.pages, p.page + 2);
    var buttons: seq<PageButton> := [];
    var i := startPage;
    while i <= endPage
      invariant startPage <= i <= Max(startPage, endPage + 1)
      invariant |buttons| == i - startPage
      invariant forall j :: 0 <= j < |buttons| ==> buttons[j] == PageButton(startPage + j, startPage + j == p.page)
      decreases endPage - i
    {
      buttons := buttons + [PageButton(i, i == p.page)];
      i := i + 1;
    }
    var w := PageWindow(p.page, p.pages);
    assert |buttons| == |w|;
    assert buttons == seq(|w|, j requires 0 <= j < |w| => PageButton(w[j], w[j] == p.page));
    r := Some(PaginationBar(p.hasPrev, buttons, p.hasNext));
  }

  // ----- the filter form -----

  /** The form's entries in document order, each a field name and its value. */
  datatype Entry = Entry(key: string, value: string)

  predicate NonBlank(value: string) {
    Trim(value) != ""
  }

  /** The filters the submit handler keeps: non-blank values, a later field of the same name winning. */
  function CleanedFilters(entries: seq<Entry>): map<string, string> {
    if entries == [] then map[]
    else Keep(CleanedFilters(entries[..|entries| - 1]), entries[|entries| - 1])
  }

  /** One entry of the form: set its field when its value is not blank. */
  function Keep(f: map<string, string>, e: Entry): map<string, string> {
    if NonBlank(e.value) then f[e.key := e.value] else f
  }

  /** Every kept filter is one of the form's entries, with a non-blank value. */
  lemma {:induction false} CleanedFiltersFromEntries(entries: seq<Entry>)
    ensures forall k :: k in CleanedFilters(entries) ==> Entry(k, CleanedFilters(entries)[k]) in entries
    ensures forall k :: k in CleanedFilters(entries) ==> NonBlank(CleanedFilters(entries)[k])
    decreases |entries|
  {
    if entries != [] {
      var init, last := entries[..|entries| - 1], entries[|entries| - 1];
      CleanedFiltersFromEntries(init);
      var f, f0 := CleanedFilters(entries), CleanedFilters(init);
      forall k | k in f
        ensures Entry(k, f[k]) in entries && NonBlank(f[k])
      {
        if NonBlank(last.value) && k == last.key {
          assert f[k] == last.value;
        } else {
          assert k in f0 && f[k] == f0[k];
          assert Entry(k, f0[k]) in init;
        }
      }
    }
  }

  /** Every field with a non-blank value is kept, and the last entry's value wins. */
  lemma {:induction false} NonBlankFieldsKept(entries: seq<Entry>)
    ensures forall i :: 0 <= i < |entries| && NonBlank(entries[i].value) ==> entries[i].key in CleanedFilters(entries)
    ensures |entries| > 0 && NonBlank(entries[|entries| - 1].value) ==>
              CleanedFilters(entries)[entries[|entries| - 1].key] == entries[|entries| - 1].value
    decreases |entries|
  {
    if entries != [] {
      var init := entries[..|entries| - 1];
      NonBlankFieldsKept(init);
      forall i | 0 <= i < |entries| - 1 && NonBlank(entries[i].value)
        ensures entries[i].key in CleanedFilters(entries)
      {
        assert init[i] == entries[i];
      }
    }
  }

  /** A field that is blank everywhere in the form never becomes a filter. */
  lemma BlankFieldsDropped(entries: seq<Entry>, key: string)
    requires forall i :: 0 <= i < |entries| && entries[i].key == key ==> !NonBlank(entries[i].value)
    ensures key !in CleanedFilters(entries)
  {
    CleanedFiltersFromEntries(entries);
  }

  /** One more entry either sets its field or leaves the filters as they were. */
  lemma CleanedFiltersStep(entries: seq<Entry>, i: nat)
    requires i < |entries|
    ensures CleanedFilters(entries[..i + 1]) == Keep(CleanedFilters(entries[..i]), entries[i])
  {
    assert entries[..i + 1][..i] == entries[..i];
  }

  /** The submit handler's loop over the form entries. */
  method CleanFilters(entries: seq<Entry>) returns (filters: map<string, string>)
    ensures filters == CleanedFilters(entries)
  {
    filters := map[];
    for i := 0 to |entries|
      invariant filters == CleanedFilters(entries[..i])
    {
      var e := entries[i];
      CleanedFiltersStep(entries, i);
      if NonBlank(e.value) {
        filters := filters[e.key := e.value];
      }
      assert filters == Keep(CleanedFilters(entries[..i]), e);
    }
    assert entries[..|entries|] == entries;
  }

  // ----- loadOrders -----

  const PerPage := 10

  /** The query of `loadOrders`: page and page size, then the filters spread over them. */
  function OrdersQuery(page: int, filters: map<string, string>): (q: map<string, string>)
    ensures q.Keys == filters.Keys + {"page", "per_page"}
    ensures "page" !in filters ==> q["page"] == IntToString(page)
    ensures "per_page" !in filters ==> q["per_page"] == IntToString(PerPage)
    ensures forall k :: k in filters ==> q[k] == filters[k]
  {
    map["page" := IntToString(page), "per_page" := IntToString(PerPage)] + filters
  }

  /** `currentPage` and `currentFilters`. */
  class OrdersPage {
    var currentPage: int
    var currentFilters: map<string, string>

    constructor()
      ensures currentPage == 1 && currentFilters == map[]
    {
      currentPage := 1;
      currentFilters := map[];
    }

    /** `loadOrders`: the page state is recorded before the request goes out. */
    method LoadOrders(page: int, filters: map<string, string>) returns (query: map<string, string>)
      modifies this
      ensures currentPage == page && currentFilters == filters
      ensures query == OrdersQuery(page, filters)
    {
      currentPage := page;
      currentFilters := filters;
      query := OrdersQuery(currentPage, currentFilters);
    }

    /** The filter form's submit: cleaned filters, back to the first page. */
    method SubmitFilters(entries: seq<Entry>) returns (query: map<string, string>)
      modifies this
      ensures currentPage == 1 && currentFilters == CleanedFilters(entries)
      ensures query == OrdersQuery(1, CleanedFilters(entries))
    {
      var filters := CleanFilters(entries);
      query := LoadOrders(1, filters);
    }
  }

  /** `getStatusClass`. */
  function StatusClass(status: string): (c: string)
    ensures status !in {"processing", "shipped", "delivered", "cancelled"} ==> c == "status-pending"
    ensures c in {"status-pending", "status-processing", "status-delivered", "status-cancelled"}
  {
    match status
    case "pending" => "status-pending"
    case "processing" => "status-processing"
    case "shipped" => "status-processing"
    case "delivered" => "status-delivered"
    case "cancelled" => "status-cancelled"
    case _ => "status-pending"
  }
}
