/** `client/src/pages/admin/AdminOrders.tsx`: the client-side order filter, its pages of
    seven, and the page-number bar with its "..." gaps. */
module AdminOrders {
  import opened Wrappers
  import opened Types
  import opened Seqs
  import opened Text
  import opened Paging

  const OrdersPerPage: nat := 7
  const MaxVisiblePages: int := 5

  // Filtering

  /** The three filters of the page; "" means the filter is off. */
  datatype OrderFilters = OrderFilters(searchTerm: string, statusFilter: string, paymentFilter: string)

  /** The search term occurs in the order id, or in the user's name when the user is populated. */
  predicate MatchesSearch(o: Order, searchTerm: string)
    ensures searchTerm == o.id ==> MatchesSearch(o, searchTerm)
  {
    FieldMatchesItself(o.id);
    searchTerm == ""
    || MatchesIgnoringCase(o.id, searchTerm)
    || (o.user.UserObject? && MatchesIgnoringCase(o.user.name, searchTerm))
  }

  predicate MatchesStatus(o: Order, statusFilter: string) {
    statusFilter == "" || o.status == Some(statusFilter)
  }

  /** "paid" keeps paid orders; any other non-empty value keeps the unpaid ones. */
  predicate MatchesPayment(o: Order, paymentFilter: string) {
    paymentFilter == "" || (if paymentFilter == "paid" then o.isPaid else !o.isPaid)
  }

  predicate OrderMatches(o: Order, f: OrderFilters) {
    MatchesSearch(o, f.searchTerm) && MatchesStatus(o, f.statusFilter) && MatchesPayment(o, f.paymentFilter)
  }

  function MatcherOf(f: OrderFilters): Order -> bool {
    (o: Order) => OrderMatches(o, f)
  }

  /** `filteredOrders`: exactly the orders that pass all three filters. */
  function FilteredOrders(orders: seq<Order>, f: OrderFilters): (r: seq<Order>)
    ensures forall o :: o in r <==> o in orders && OrderMatches(o, f)
  {
    Filter(orders, MatcherOf(f))
  }

  /** The filter keeps the orders' relative order. */
  lemma FilteredIsSubsequence(orders: seq<Order>, f: OrderFilters)
    ensures IsSubsequence(FilteredOrders(orders, f), orders)
  {
    FilterIsSubsequence(orders, MatcherOf(f));
  }

  /** With every filter off the list is shown unchanged. */
  lemma NoFiltersShowAll(orders: seq<Order>)
    ensures FilteredOrders(orders, OrderFilters("", "", "")) == orders
  {
    FilterKeepsAll(orders, MatcherOf(OrderFilters("", "", "")));
  }

  /** Any non-empty payment value other than "paid" ("unpaid" in the form) splits the
      orders complementarily to "paid". */
  lemma PaymentFilterSplits(o: Order, other: string)
    requires other != "" && other != "paid"
    ensures MatchesPayment(o, "paid") != MatchesPayment(o, other)
  {
  }

  // Pages

  /** `Math.ceil(filteredOrders.length / ordersPerPage)`. */
  function TotalPages(filtered: seq<Order>): (r: nat)
    ensures |filtered| <= r * OrdersPerPage && (r == 0 || (r - 1) * OrdersPerPage < |filtered|)
    ensures r == 0 <==> filtered == []
  {
    CeilDivZero(|filtered|, OrdersPerPage);
    CeilDiv(|filtered|, OrdersPerPage)
  }

  /** `filteredOrders.slice(startIndex, endIndex)`. */
  function CurrentOrders(filtered: seq<Order>, currentPage: int): (r: seq<Order>)
    ensures currentPage >= 1 ==> |r| <= OrdersPerPage
    ensures currentPage > TotalPages(filtered) ==> r == []
  {
    if currentPage >= 1 then
      PageSliceShape(filtered, currentPage, OrdersPerPage);
      PageSlice(filtered, currentPage, OrdersPerPage)
    else PageSlice(filtered, currentPage, OrdersPerPage)
  }

  /** A page shows at most seven orders, consecutive in the filtered list, and every
      filtered order is shown on some page within [1, totalPages]. */
  lemma PagesCoverFiltered(filtered: seq<Order>, currentPage: int, j: nat)
    requires currentPage >= 1 && j < |filtered|
    ensures |CurrentOrders(filtered, currentPage)| <= OrdersPerPage
    ensures var p := j / OrdersPerPage + 1;
            1 <= p <= TotalPages(filtered) && filtered[j] in CurrentOrders(filtered, p)
  {
    PageSliceShape(filtered, currentPage, OrdersPerPage);
    EveryElementOnAPage(filtered, j, OrdersPerPage);
  }

  // Page-number bar

  /** An entry of the page bar: a page button or the "..." marker. */
  datatype PageItem = Page(n: int) | Gap

  /** Buttons for pages lo..hi. */
  function Buttons(lo: int, hi: int): (r: seq<PageItem>)
    ensures |r| == if hi < lo then 0 else hi - lo + 1
    ensures forall i :: 0 <= i < |r| ==> r[i] == Page(lo + i)
  {
    seq(if hi < lo then 0 else hi - lo + 1, i => Page(lo + i))
  }

  /** The bar `getPageNumbers` builds: all pages when there are at most five; otherwise
      the first four, the last four, or the current page with its neighbours, joined to
      page 1 and the last page by gaps. */
  function PageNumbers(currentPage: int, totalPages: int): (r: seq<PageItem>)
    ensures totalPages <= 0 ==> r == []
    ensures totalPages >= 1 ==> 1 <= |r| <= 7
  {
    if totalPages <= MaxVisiblePages then Buttons(1, totalPages)
    else if currentPage <= 3 then Buttons(1, 4) + [Gap, Page(totalPages)]
    else if currentPage >= totalPages - 2 then [Page(1), Gap] + Buttons(totalPages - 3, totalPages)
    else [Page(1), Gap] + Buttons(currentPage - 1, currentPage + 1) + [Gap, Page(totalPages)]
  }

  /** `pages.push(i)` for i from lo to hi. */
  method PushRange(pages: seq<PageItem>, lo: int, hi: int) returns (r: seq<PageItem>)
    ensures r == pages + Buttons(lo, hi)
  {
    r := pages;
    var i := lo;
    while i <= hi
      invariant lo <= i <= (if hi < lo then lo else hi + 1)
      invariant r == pages + Buttons(lo, i - 1)
      decreases hi - i
    {
      r := r + [Page(i)];
      i := i + 1;
    }
  }

  /** `getPageNumbers`, loop by loop. */
  method GetPageNumbers(currentPage: int, totalPages: int) returns (pages: seq<PageItem>)
    ensures pages == PageNumbers(currentPage, totalPages)
  {
    pages := [];
    if totalPages <= MaxVisiblePages {
      pages := PushRange(pages, 1, totalPages);
    } else if currentPage <= 3 {
      pages := PushRange(pages, 1, 4);
      pages := pages + [Gap];
      pages := pages + [Page(totalPages)];
    } else if currentPage >= totalPages - 2 {
      pages := pages + [Page(1)];
      pages := pages + [Gap];
      pages := PushRange(pages, totalPages - 3, totalPages);
    } else {
      pages := pages + [Page(1)];
      pages := pages + [Gap];
      pages := PushRange(pages, currentPage - 1, currentPage + 1);
      pages := pages + [Gap];
      pages := pages + [Page(totalPages)];
    }
  }

  /** Up to five pages the bar is every page, in order. */
  lemma FewPagesAllShown(currentPage: int, totalPages: int)
    requires 0 <= totalPages <= MaxVisiblePages
    ensures |PageNumbers(currentPage, totalPages)| == totalPages
    ensures forall i :: 0 <= i < totalPages ==> PageNumbers(currentPage, totalPages)[i] == Page(i + 1)
  {
  }

  /** Beyond five pages the bar starts at page 1, ends at the last page, and has seven
      entries at most. */
  lemma ManyPagesEnds(currentPage: int, totalPages: int)
    requires totalPages > MaxVisiblePages
    ensures var r := PageNumbers(currentPage, totalPages);
            6 <= |r| <= 7 && r[0] == Page(1) && r[|r| - 1] == Page(totalPages)
  {
  }

  /** The page numbers on the bar strictly increase from left to right. */
  lemma PageNumbersIncrease(currentPage: int, totalPages: int)
    ensures var r := PageNumbers(currentPage, totalPages);
            forall i, j :: 0 <= i < j < |r| && r[i].Page? && r[j].Page? ==> r[i].n < r[j].n
  {
  }

  /** Neighbouring buttons are neighbouring pages, and a gap always stands between two
      buttons and hides at least one page. */
  lemma GapsHidePages(currentPage: int, totalPages: int)
    ensures var r := PageNumbers(currentPage, totalPages);
            (forall i :: 0 <= i < |r| - 1 && r[i].Page? && r[i + 1].Page? ==> r[i + 1].n == r[i].n + 1)
            && (forall i :: 0 <= i < |r| && r[i].Gap? ==>
                  0 < i < |r| - 1 && r[i - 1].Page? && r[i + 1].Page? && r[i + 1].n > r[i - 1].n + 1)
  {
  }

  /** The current page, when it exists, always has a button. */
  lemma CurrentPageShown(currentPage: int, totalPages: int)
    requires 1 <= currentPage <= totalPages
    ensures Page(currentPage) in PageNumbers(currentPage, totalPages)
  {
    var r := PageNumbers(currentPage, totalPages);
    if totalPages <= MaxVisiblePages {
      assert r[currentPage - 1] == Page(currentPage);
    } else if currentPage <= 3 {
      assert r[currentPage - 1] == Page(currentPage);
    } else if currentPage >= totalPages - 2 {
      assert r[currentPage - totalPages + 5] == Page(currentPage);
    } else {
      assert r[3] == Page(currentPage);
    }
  }

  // Page state

  /** The page's state: the fetched orders, the three filters and the current page. */
  class OrdersView {
    var orders: seq<Order>
    var filters: OrderFilters
    var currentPage: int

    /** The page holds the current page within [1, totalPages] (1 when nothing matches). */
    predicate Valid()
      reads this
    {
      1 <= currentPage && (currentPage == 1 || currentPage <= TotalPages(FilteredOrders(orders, filters)))
    }

    constructor(fetched: seq<Order>)
      ensures orders == fetched && filters == OrderFilters("", "", "") && currentPage == 1
      ensures Valid()
    {
      orders := fetched;
      filters := OrderFilters("", "", "");
      currentPage := 1;
    }

    /** The orders of the current page. */
    function Shown(): (r: seq<Order>)
      reads this
      ensures |r| <= OrdersPerPage
    {
      var filtered := FilteredOrders(orders, filters);
      PageSliceBound(filtered, currentPage);
      CurrentOrders(filtered, currentPage)
    }

    /** Typing into a filter: the filter changes and the page goes back to 1. */
    method SetFilters(f: OrderFilters)
      modifies this
      ensures orders == old(orders) && filters == f && currentPage == 1
      ensures Valid()
    {
      filters := f;
      currentPage := 1;
    }

    /** `goToPage`: only a page within [1, totalPages] is taken. */
    method GoToPage(page: int)
      requires Valid()
      modifies this
      ensures orders == old(orders) && filters == old(filters)
      ensures currentPage == ChangePage(old(currentPage), page, TotalPages(FilteredOrders(orders, filters)))
      ensures Valid()
    {
      var totalPages := TotalPages(FilteredOrders(orders, filters));
      if page >= 1 && page <= totalPages {
        currentPage := page;
      }
    }
  }

  lemma PageSliceBound(filtered: seq<Order>, currentPage: int)
    ensures |CurrentOrders(filtered, currentPage)| <= OrdersPerPage
  {
    if currentPage >= 1 {
      PageSliceShape(filtered, currentPage, OrdersPerPage);
    } else {
      var start := (currentPage - 1) * OrdersPerPage;
      var end := start + OrdersPerPage;
      assert end <= 0;
    }
  }
}
