/** `client/src/pages/admin/AdminProducts.tsx`: the request parameters of the product
    table, its five-button page window, Previous/Next, and the local delete. */
module AdminProducts {
  import opened Wrappers
  import opened Types
  import opened Seqs

  /** The query sent to the product list: the page always, keyword and category only
      when the fields are non-empty. */
  datatype ProductParams = ProductParams(pageNumber: int, keyword: Option<string>, category: Option<string>)

  /** `{ pageNumber, ...(searchTerm && { keyword }), ...(selectedCategory && { category }) }`. */
  function FetchParams(currentPage: int, searchTerm: string, selectedCategory: string): (r: ProductParams)
    ensures r.pageNumber == currentPage
    ensures r.keyword.Some? <==> searchTerm != ""
    ensures r.keyword.Some? ==> r.keyword.value == searchTerm
    ensures r.category.Some? <==> selectedCategory != ""
    ensures r.category.Some? ==> r.category.value == selectedCategory
  {
    ProductParams(currentPage,
      if searchTerm != "" then Some(searchTerm) else None,
      if selectedCategory != "" then Some(selectedCategory) else None)
  }

  // The page window

  const WindowSize: int := 5

  /** `Math.min(5, totalPages)`, as the length `Array.from` accepts (never negative). */
  function WindowLength(totalPages: int): (r: nat)
    ensures r <= WindowSize && (totalPages >= 0 ==> r <= totalPages)
    ensures totalPages >= 1 ==> r >= 1
    ensures r == WindowSize || r == (if totalPages < 0 then 0 else totalPages)
  {
    if totalPages <= 0 then 0 else if totalPages < WindowSize then totalPages else WindowSize
  }

  /** The first page number of the window. */
  function WindowStart(currentPage: int, totalPages: int): (r: int)
    ensures r >= 1 && r + WindowLength(totalPages) - 1 <= (if totalPages < 1 then 0 else totalPages)
    ensures 1 <= currentPage <= totalPages ==> r <= currentPage < r + WindowLength(totalPages)
  {
    if totalPages <= WindowSize then 1
    else if currentPage <= 3 then 1
    else if currentPage >= totalPages - 2 then totalPages - 4
    else currentPage - 2
  }

  /** The page buttons: `Array.from({ length: Math.min(5, totalPages) }, (_, i) => pageNum)`. */
  function PageWindow(currentPage: int, totalPages: int): (r: seq<int>)
    ensures |r| == WindowLength(totalPages)
  {
    seq(WindowLength(totalPages), i => WindowStart(currentPage, totalPages) + i)
  }

  /** The window is a run of consecutive pages inside [1, totalPages]. */
  lemma WindowInRange(currentPage: int, totalPages: int)
    ensures var r := PageWindow(currentPage, totalPages);
            (forall i :: 0 <= i < |r| ==> 1 <= r[i] <= totalPages)
            && (forall i :: 0 <= i < |r| - 1 ==> r[i + 1] == r[i] + 1)
  {
  }

  /** Up to five pages the window is exactly 1..totalPages. */
  lemma FewPagesWindow(currentPage: int, totalPages: int)
    requires 0 <= totalPages <= WindowSize
    ensures PageWindow(currentPage, totalPages) == Range(1, totalPages)
  {
  }

  /** The current page, when it exists, has a button; beyond five pages it is centred
      unless it is within two of either end. */
  lemma WindowHoldsCurrent(currentPage: int, totalPages: int)
    requires 1 <= currentPage <= totalPages
    ensures currentPage in PageWindow(currentPage, totalPages)
    ensures totalPages > WindowSize && 3 < currentPage < totalPages - 2 ==> PageWindow(currentPage, totalPages)[2] == currentPage
  {
    var r := PageWindow(currentPage, totalPages);
    assert r[currentPage - WindowStart(currentPage, totalPages)] == currentPage;
  }

  /** Previous: `Math.max(prev - 1, 1)`. */
  function PreviousPage(prev: int): (r: int)
    ensures r >= 1
    ensures prev > 1 ==> r == prev - 1
    ensures prev <= 1 ==> r == 1
  {
    if prev - 1 > 1 then prev - 1 else 1
  }

  /** Next: `Math.min(prev + 1, totalPages)`. */
  function NextPage(prev: int, totalPages: int): (r: int)
    ensures r <= totalPages
    ensures prev < totalPages ==> r == prev + 1
    ensures prev >= totalPages ==> r == totalPages
  {
    if prev + 1 < totalPages then prev + 1 else totalPages
  }

  /** Previous and Next never leave [1, totalPages], and each undoes the other away from
      the ends. */
  lemma StepsStayInRange(prev: int, totalPages: int)
    requires 1 <= prev <= totalPages
    ensures 1 <= PreviousPage(prev) <= totalPages
    ensures 1 <= NextPage(prev, totalPages) <= totalPages
    ensures prev < totalPages ==> PreviousPage(NextPage(prev, totalPages)) == prev
    ensures prev > 1 ==> NextPage(PreviousPage(prev), totalPages) == prev
  {
  }

  // Local delete

  /** The key of the local delete `products.filter((product) => product._id !== id)`. */
  function ProductId(p: Product): string {
    p.id
  }

  // Page state

  /** The table's state: the fetched page of products, the search and category fields,
      the current page and the server's page count. */
  class ProductsView {
    var products: seq<Product>
    var searchTerm: string
    var selectedCategory: string
    var currentPage: int
    var totalPages: int
    var totalProducts: int

    constructor()
      ensures products == [] && searchTerm == "" && selectedCategory == ""
      ensures currentPage == 1 && totalPages == 1 && totalProducts == 0
    {
      products := [];
      searchTerm := "";
      selectedCategory := "";
      currentPage := 1;
      totalPages := 1;
      totalProducts := 0;
    }

    /** The parameters of the next fetch. */
    function Params(): ProductParams
      reads this
    {
      FetchParams(currentPage, searchTerm, selectedCategory)
    }

    /** A successful fetch replaces the rows and the counts. */
    method Loaded(rows: seq<Product>, pages: int, total: int)
      modifies this`products, this`totalPages, this`totalProducts
      ensures products == rows && totalPages == pages && totalProducts == total
    {
      products := rows;
      totalPages := pages;
      totalProducts := total;
    }

    /** Typing in the search box: the term changes, which fetches again with it on the
        current page. */
    method SetSearchTerm(term: string)
      modifies this`searchTerm
      ensures searchTerm == term
      ensures Params() == FetchParams(old(currentPage), term, old(selectedCategory))
    {
      searchTerm := term;
    }

    /** Submitting the search form goes back to page 1. */
    method HandleSearch()
      modifies this`currentPage
      ensures currentPage == 1
    {
      currentPage := 1;
    }

    /** Choosing a category filters by it and goes back to page 1. */
    method SelectCategory(category: string)
      modifies this`selectedCategory, this`currentPage
      ensures selectedCategory == category && currentPage == 1
    {
      selectedCategory := category;
      currentPage := 1;
    }

    method Previous()
      modifies this`currentPage
      ensures currentPage == PreviousPage(old(currentPage))
    {
      currentPage := if currentPage - 1 > 1 then currentPage - 1 else 1;
    }

    method Next()
      modifies this`currentPage
      ensures currentPage == NextPage(old(currentPage), totalPages)
    {
      currentPage := if currentPage + 1 < totalPages then currentPage + 1 else totalPages;
    }

    /** A window button selects its page. */
    method ChooseWindowPage(i: nat)
      requires i < WindowLength(totalPages)
      modifies this`currentPage
      ensures currentPage == PageWindow(old(currentPage), totalPages)[i]
    {
      currentPage := WindowStart(currentPage, totalPages) + i;
    }

    /** `handleDelete`: after confirmation and a successful API call, the row disappears
      locally; otherwise nothing changes. */
    method HandleDelete(id: string, confirmed: bool, apiOk: bool)
      modifies this`products
      ensures products == if confirmed && apiOk then WithoutKey(old(products), ProductId, id) else old(products)
    {
      if confirmed && apiOk {
        products := WithoutKey(products, ProductId, id);
      }
    }
  }
}
