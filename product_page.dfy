/** `client/src/pages/ProductPage.tsx`, an older copy of the catalog page that is not
    routed. Its URL handling is the one in `UrlFilters`; only its request differs. */
module ProductPage {
  import opened Wrappers
  import opened Types
  import opened UrlFilters
  import ProductsPage
  import ProductController

  /** The request: like the routed page's, except that any non-empty sort order is
      forwarded unchanged. */
  function QueryParams(currentPage: int, v: UrlView, numberText: string -> string): (r: ProductsPage.RequestParams)
    ensures r.pageNumber == currentPage
    ensures r.keyword.Some? <==> v.keyword != ""
    ensures r.keyword.Some? ==> r.keyword.value == v.keyword
    ensures r.category.Some? <==> v.categoryId != ""
    ensures r.category.Some? ==> r.category.value == v.categoryId
    ensures r.sortBy == (if v.sortBy != "" then Some(v.sortBy) else None)
    ensures r.priceMin == BoundText(v.minPrice, numberText) && r.priceMax == BoundText(v.maxPrice, numberText)
    ensures r.sortOrder.Some? <==> v.sortOrder != ""
    ensures r.sortOrder.Some? ==> r.sortOrder.value == v.sortOrder
  {
    ProductsPage.RequestParams(
      currentPage,
      if v.keyword != "" then Some(v.keyword) else None,
      if v.categoryId != "" then Some(v.categoryId) else None,
      BoundText(v.minPrice, numberText),
      BoundText(v.maxPrice, numberText),
      if v.sortBy != "" then Some(v.sortBy) else None,
      if v.sortOrder != "" then Some(v.sortOrder) else None)
  }

  /** The two pages agree on every parameter but the sort order, and there they differ
      exactly when the URL's order is neither "asc" nor "desc". */
  lemma PagesDifferOnlyInSortOrder(currentPage: int, v: UrlView, numberText: string -> string)
    ensures var a := ProductsPage.QueryParams(currentPage, v, numberText);
            var b := QueryParams(currentPage, v, numberText);
            a.(sortOrder := None) == b.(sortOrder := None)
            && (a.sortOrder != b.sortOrder <==> v.sortOrder != "" && !ProductsPage.IsSortOrder(v.sortOrder))
  {
  }

  /** The difference is harmless: the product listing sorts both requests the same way,
      since it sorts descending only for "desc". */
  lemma SameServerSort(currentPage: int, query: Pairs, numberText: string -> string)
    ensures var v := ReadUrl(query);
            ProductController.SortOf(ProductsPage.QueryParams(currentPage, v, numberText).sortBy, ProductsPage.QueryParams(currentPage, v, numberText).sortOrder)
            == ProductController.SortOf(QueryParams(currentPage, v, numberText).sortBy, QueryParams(currentPage, v, numberText).sortOrder)
  {
  }
}
