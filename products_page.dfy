/** `client/src/pages/ProductsPage.tsx`: the product request the catalog page sends. The
    URL handling it shares with `ProductPage.tsx` is in `UrlFilters`. */
module ProductsPage {
  import opened Wrappers
  import opened Types
  import opened UrlFilters

  /** The query object passed to `getProducts`; None is a parameter left out. */
  datatype RequestParams = RequestParams(
    pageNumber: int,
    keyword: Option<string>,
    category: Option<string>,
    priceMin: Option<string>,
    priceMax: Option<string>,
    sortBy: Option<string>,
    sortOrder: Option<string>)

  predicate IsSortOrder(s: string) {
    s == "desc" || s == "asc"
  }

  /** The request: keyword and category only when non-empty, price bounds only when
      defined (as the number read from the URL, which the request writes back as
      `String(number)`; `numberText` is that round trip), the sort field when non-empty, and the sort order only when it is "asc"
      or "desc". */
  function QueryParams(currentPage: int, v: UrlView, numberText: string -> string): (r: RequestParams)
    ensures r.pageNumber == currentPage
    ensures r.keyword.Some? <==> v.keyword != ""
    ensures r.keyword.Some? ==> r.keyword.value == v.keyword
    ensures r.category.Some? <==> v.categoryId != ""
    ensures r.category.Some? ==> r.category.value == v.categoryId
    ensures r.sortBy == (if v.sortBy != "" then Some(v.sortBy) else None)
    ensures r.priceMin == BoundText(v.minPrice, numberText) && r.priceMax == BoundText(v.maxPrice, numberText)
    ensures r.sortOrder.Some? <==> IsSortOrder(v.sortOrder)
    ensures r.sortOrder.Some? ==> r.sortOrder.value == v.sortOrder
  {
    RequestParams(
      currentPage,
      if v.keyword != "" then Some(v.keyword) else None,
      if v.categoryId != "" then Some(v.categoryId) else None,
      BoundText(v.minPrice, numberText),
      BoundText(v.maxPrice, numberText),
      if v.sortBy != "" then Some(v.sortBy) else None,
      if v.sortOrder != "" && IsSortOrder(v.sortOrder) then Some(v.sortOrder) else None)
  }

  /** Whatever the URL holds, the request names a sort field and an order that is "asc",
      "desc" or absent; a URL without sort parameters asks for newest first. */
  lemma RequestSortIsWellFormed(currentPage: int, query: Pairs, numberText: string -> string)
    ensures var r := QueryParams(currentPage, ReadUrl(query), numberText);
            r.sortBy.Some? && (r.sortOrder.Some? ==> IsSortOrder(r.sortOrder.value))
    ensures Get(query, "sortBy").None? && Get(query, "sortOrder").None? ==>
              QueryParams(currentPage, ReadUrl(query), numberText).sortBy == Some("createdAt")
              && QueryParams(currentPage, ReadUrl(query), numberText).sortOrder == Some("desc")
  {
  }
}
