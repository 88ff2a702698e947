/** The URL query of the catalog pages (`client/src/pages/ProductsPage.tsx` and its copy
    `client/src/pages/ProductPage.tsx`): `URLSearchParams` as an ordered list of
    name-value pairs, and `updateFilters`, which edits it. */
module UrlFilters {
  import opened Wrappers
  import opened Paging

  type Pairs = seq<(string, string)>

  /** `params.get(key)`: the value of the first pair with that name. */
  function Get(pairs: Pairs, key: string): (r: Option<string>)
    ensures r.None? <==> forall i :: 0 <= i < |pairs| ==> pairs[i].0 != key
    ensures r.Some? ==> (key, r.value) in pairs
  {
    if pairs == [] then None
    else if pairs[0].0 == key then Some(pairs[0].1)
    else Get(pairs[1..], key)
  }

  /** `params.delete(key)`: every pair with that name goes, the rest keep their order. */
  function DeleteKey(pairs: Pairs, key: string): (r: Pairs)
    ensures forall e :: e in r <==> e in pairs && e.0 != key
    ensures |r| <= |pairs|
  {
    if pairs == [] then []
    else (if pairs[0].0 == key then [] else [pairs[0]]) + DeleteKey(pairs[1..], key)
  }

  /** `params.set(key, value)`: the first pair with that name takes the value and the
      others with that name go; without one, the pair is appended. */
  function SetKey(pairs: Pairs, key: string, value: string): (r: Pairs)
    ensures forall e :: e in r <==> e == (key, value) || (e in pairs && e.0 != key)
  {
    if pairs == [] then [(key, value)]
    else if pairs[0].0 == key then [(key, value)] + DeleteKey(pairs[1..], key)
    else [pairs[0]] + SetKey(pairs[1..], key, value)
  }

  lemma GetCons(x: (string, string), rest: Pairs, key: string)
    ensures Get([x] + rest, key) == if x.0 == key then Some(x.1) else Get(rest, key)
  {
    assert ([x] + rest)[1..] == rest;
  }

  lemma DeleteCons(x: (string, string), rest: Pairs, key: string)
    ensures DeleteKey([x] + rest, key) == (if x.0 == key then [] else [x]) + DeleteKey(rest, key)
  {
    assert ([x] + rest)[1..] == rest;
  }

  /** After a delete the name is gone and every other name reads as before. */
  lemma {:induction false} GetAfterDelete(pairs: Pairs, key: string, other: string)
    ensures Get(DeleteKey(pairs, key), key) == None
    ensures other != key ==> Get(DeleteKey(pairs, key), other) == Get(pairs, other)
  {
    if pairs != [] {
      GetAfterDelete(pairs[1..], key, other);
      if pairs[0].0 == key {
        assert DeleteKey(pairs, key) == DeleteKey(pairs[1..], key);
      } else {
        assert DeleteKey(pairs, key) == [pairs[0]] + DeleteKey(pairs[1..], key);
        GetCons(pairs[0], DeleteKey(pairs[1..], key), key);
        GetCons(pairs[0], DeleteKey(pairs[1..], key), other);
      }
    }
  }

  /** After a set the name reads as the new value and every other name as before. */
  lemma {:induction false} GetAfterSet(pairs: Pairs, key: string, value: string, other: string)
    ensures Get(SetKey(pairs, key, value), key) == Some(value)
    ensures other != key ==> Get(SetKey(pairs, key, value), other) == Get(pairs, other)
  {
    if pairs == [] {
      GetCons((key, value), [], other);
    } else if pairs[0].0 == key {
      GetAfterDelete(pairs[1..], key, other);
      GetCons((key, value), DeleteKey(pairs[1..], key), key);
      GetCons((key, value), DeleteKey(pairs[1..], key), other);
      GetCons(pairs[0], pairs[1..], other);
    } else {
      GetAfterSet(pairs[1..], key, value, other);
      GetCons(pairs[0], SetKey(pairs[1..], key, value), key);
      GetCons(pairs[0], SetKey(pairs[1..], key, value), other);
      GetCons(pairs[0], pairs[1..], other);
    }
  }

  /** A set disturbs nothing but its own name: removing that name afterwards gives the
      same list as removing it before, order included. */
  lemma {:induction false} SetKeepsOthersInOrder(pairs: Pairs, key: string, value: string)
    ensures DeleteKey(SetKey(pairs, key, value), key) == DeleteKey(pairs, key)
  {
    if pairs == [] {
      DeleteCons((key, value), [], key);
    } else if pairs[0].0 == key {
      DeleteTwice(pairs[1..], key);
      DeleteCons((key, value), DeleteKey(pairs[1..], key), key);
      DeleteCons(pairs[0], pairs[1..], key);
    } else {
      SetKeepsOthersInOrder(pairs[1..], key, value);
      DeleteCons(pairs[0], SetKey(pairs[1..], key, value), key);
      DeleteCons(pairs[0], pairs[1..], key);
    }
  }

  lemma {:induction false} DeleteTwice(pairs: Pairs, key: string)
    ensures DeleteKey(DeleteKey(pairs, key), key) == DeleteKey(pairs, key)
  {
    if pairs != [] {
      DeleteTwice(pairs[1..], key);
      if pairs[0].0 != key {
        assert DeleteKey(pairs, key) == [pairs[0]] + DeleteKey(pairs[1..], key);
        DeleteCons(pairs[0], DeleteKey(pairs[1..], key), key);
      } else {
        assert DeleteKey(pairs, key) == DeleteKey(pairs[1..], key);
      }
    }
  }

  /** One entry of `newFilters`: its name and `String(value)`, or None for `undefined`.
      Numbers arrive already rendered by `String`. */
  type Entry = (string, Option<string>)

  /** An entry removes its name when the value is undefined or "". */
  predicate Removes(e: Entry) {
    e.1.None? || e.1.value == ""
  }

  /** The body of the `forEach`. */
  function ApplyEntry(pairs: Pairs, e: Entry): Pairs {
    if Removes(e) then DeleteKey(pairs, e.0) else SetKey(pairs, e.0, e.1.value)
  }

  /** The entries applied one after the other, in the object's order. */
  function ApplyFilters(pairs: Pairs, entries: seq<Entry>): Pairs
    decreases |entries|
  {
    if entries == [] then pairs
    else ApplyEntry(ApplyFilters(pairs, entries[..|entries| - 1]), entries[|entries| - 1])
  }

  /** What an entry leaves its name reading. */
  function Expected(e: Entry): Option<string> {
    if Removes(e) then None else e.1
  }

  lemma GetAfterEntry(pairs: Pairs, e: Entry, other: string)
    ensures Get(ApplyEntry(pairs, e), e.0) == Expected(e)
    ensures other != e.0 ==> Get(ApplyEntry(pairs, e), other) == Get(pairs, other)
  {
    if Removes(e) {
      GetAfterDelete(pairs, e.0, other);
    } else {
      GetAfterSet(pairs, e.0, e.1.value, other);
    }
  }

  /** A name no entry mentions reads as before. */
  lemma {:induction false} UntouchedKeysKept(pairs: Pairs, entries: seq<Entry>, key: string)
    requires forall i :: 0 <= i < |entries| ==> entries[i].0 != key
    ensures Get(ApplyFilters(pairs, entries), key) == Get(pairs, key)
    decreases |entries|
  {
    if entries != [] {
      var init := entries[..|entries| - 1];
      UntouchedKeysKept(pairs, init, key);
      GetAfterEntry(ApplyFilters(pairs, init), entries[|entries| - 1], key);
    }
  }

  /** With distinct names (an object's keys), every entry's name ends up reading as that
      entry says: unset when undefined or "", its text otherwise. */
  lemma {:induction false} EntriesTakeEffect(pairs: Pairs, entries: seq<Entry>, i: nat)
    requires i < |entries|
    requires forall a, b :: 0 <= a < b < |entries| ==> entries[a].0 != entries[b].0
    ensures Get(ApplyFilters(pairs, entries), entries[i].0) == Expected(entries[i])
    decreases |entries|
  {
    var init, last := entries[..|entries| - 1], entries[|entries| - 1];
    if i == |entries| - 1 {
      GetAfterEntry(ApplyFilters(pairs, init), last, last.0);
    } else {
      EntriesTakeEffect(pairs, init, i);
      GetAfterEntry(ApplyFilters(pairs, init), last, entries[i].0);
    }
  }

  /** `get(key) || fallback`. */
  function GetOr(pairs: Pairs, key: string, fallback: string): (r: string)
    ensures Get(pairs, key).Some? && Get(pairs, key).value != "" ==> r == Get(pairs, key).value
    ensures Get(pairs, key).None? || Get(pairs, key).value == "" ==> r == fallback
  {
    var v := Get(pairs, key);
    if v.Some? && v.value != "" then v.value else fallback
  }

  /** A price bound read from the URL: its text when present and non-empty (the page then
      converts it with `Number`), else undefined. */
  function PriceText(pairs: Pairs, key: string): (r: Option<string>)
    ensures r.Some? <==> Get(pairs, key).Some? && Get(pairs, key).value != ""
    ensures r.Some? ==> r == Get(pairs, key)
  {
    var v := Get(pairs, key);
    if v.Some? && v.value != "" then v else None
  }

  /** The filter values the page reads from its URL. */
  datatype UrlView = UrlView(
    keyword: string,
    categoryId: string,
    minPrice: Option<string>,
    maxPrice: Option<string>,
    sortBy: string,
    sortOrder: string)

  /** Keyword and category default to "", the sort to newest first. */
  function ReadUrl(pairs: Pairs): (r: UrlView)
    ensures r.sortBy != "" && r.sortOrder != ""
  {
    UrlView(GetOr(pairs, "keyword", ""), GetOr(pairs, "category", ""),
      PriceText(pairs, "priceMin"), PriceText(pairs, "priceMax"),
      GetOr(pairs, "sortBy", "createdAt"), GetOr(pairs, "sortOrder", "desc"))
  }

  /** A cleared URL reads as no filter, newest first. */
  lemma EmptyUrlDefaults()
    ensures ReadUrl([]) == UrlView("", "", None, None, "createdAt", "desc")
  {
  }

  /** Only the entries that `updateFilters` writes change what the page reads: setting the
      keyword leaves the category, price and sort readings as they were. */
  lemma KeywordSearchKeepsOtherFilters(query: Pairs, term: string)
    ensures var after := ReadUrl(ApplyFilters(DeleteKey(query, "pageNumber"), [("keyword", Some(term))]));
            after.keyword == term && after.categoryId == ReadUrl(query).categoryId
            && after.minPrice == ReadUrl(query).minPrice && after.sortBy == ReadUrl(query).sortBy
            && after.sortOrder == ReadUrl(query).sortOrder
  {
    var start := DeleteKey(query, "pageNumber");
    var e: Entry := ("keyword", Some(term));
    assert ApplyFilters(start, [e]) == ApplyEntry(start, e) by {
      assert [e][..0] == [];
    }
    KeptThroughKeyword(query, term, "category");
    KeptThroughKeyword(query, term, "priceMin");
    KeptThroughKeyword(query, term, "sortBy");
    KeptThroughKeyword(query, term, "sortOrder");
    GetAfterEntry(start, e, e.0);
  }

  lemma KeptThroughKeyword(query: Pairs, term: string, k: string)
    requires k != "keyword" && k != "pageNumber"
    ensures Get(ApplyEntry(DeleteKey(query, "pageNumber"), ("keyword", Some(term))), k) == Get(query, k)
  {
    GetAfterEntry(DeleteKey(query, "pageNumber"), ("keyword", Some(term)), k);
    GetAfterDelete(query, "pageNumber", k);
  }

  /** The first position of `c` in `s`, or -1. */
  function IndexOf(s: string, c: char): (r: int)
    ensures -1 <= r < |s|
    ensures r == -1 ==> c !in s
    ensures r >= 0 ==> s[r] == c && c !in s[..r]
  {
    if s == [] then -1
    else if s[0] == c then 0
    else
      var k := IndexOf(s[1..], c);
      if k == -1 then -1 else k + 1
  }

  /** `const [by, order] = value.split("-")`: the text before the first '-', and the text
      between it and the next '-' (undefined when there is no '-'). */
  function SortSelection(value: string): (r: (string, Option<string>))
    ensures r.1.None? <==> '-' !in value
    ensures r.1.None? ==> r.0 == value
    ensures '-' !in r.0 && r.0 <= value
    ensures r.1.Some? ==> '-' !in r.1.value
  {
    var i := IndexOf(value, '-');
    if i < 0 then (value, None)
    else
      var rest := value[i + 1..];
      var j := IndexOf(rest, '-');
      (value[..i], Some(if j < 0 then rest else rest[..j]))
  }

  /** The options of the sort select, "field-order", split back into field and order. */
  lemma SortSelectionSplits(field: string, order: string)
    requires '-' !in field && '-' !in order
    ensures SortSelection(field + "-" + order) == (field, Some(order))
  {
    var v := field + "-" + order;
    assert v[|field|] == '-' && v[..|field|] == field;
    assert v[|field| + 1..] == order;
  }

  /** The `URLSearchParams` copy that `updateFilters` edits in place. */
  class SearchParams {
    var pairs: Pairs

    constructor(from: Pairs)
      ensures pairs == from
    {
      pairs := from;
    }

    method Delete(key: string)
      modifies this
      ensures pairs == DeleteKey(old(pairs), key)
    {
      pairs := DeleteKey(pairs, key);
    }

    method Set(key: string, value: string)
      modifies this
      ensures pairs == SetKey(old(pairs), key, value)
    {
      pairs := SetKey(pairs, key, value);
    }
  }

  /** A price bound of the form as text: the page holds it as a number, read with
      `Number(text)` from the URL and written back with `String(number)`. */
  function BoundText(text: Option<string>, numberText: string -> string): (r: Option<string>)
    ensures r.None? <==> text.None?
    ensures r.Some? ==> r.value == numberText(text.value)
  {
    if text.Some? then Some(numberText(text.value)) else None
  }

  /** The state shared by the catalog pages: the URL's query, the current page, the page
      count of the last response, and the filter form. A price bound is kept as the text
      `String(number)` gives it, which is what `updateFilters` writes. */
  class CatalogPage {
    var searchParams: Pairs
    var currentPage: int
    var totalPages: int
    var searchTerm: string
    var selectedCategory: string
    var priceMin: Option<string>
    var priceMax: Option<string>
    var sortBy: string
    var sortOrder: string

    /** The form starts from what the URL says. `numberText` is `String(Number(text))`:
        a bound read from the URL is normalised ("010" becomes "10", "abc" becomes "NaN")
        before it is ever written back. */
    constructor(query: Pairs, numberText: string -> string)
      ensures searchParams == query && currentPage == 1 && totalPages == 1
      ensures var v := ReadUrl(query);
              searchTerm == v.keyword && selectedCategory == v.categoryId
              && priceMin == BoundText(v.minPrice, numberText) && priceMax == BoundText(v.maxPrice, numberText)
              && sortBy == v.sortBy && sortOrder == v.sortOrder
    {
      var v := ReadUrl(query);
      searchParams := query;
      currentPage := 1;
      totalPages := 1;
      searchTerm := v.keyword;
      selectedCategory := v.categoryId;
      priceMin := BoundText(v.minPrice, numberText);
      priceMax := BoundText(v.maxPrice, numberText);
      sortBy := v.sortBy;
      sortOrder := v.sortOrder;
    }

    /** `updateFilters`: back to page 1, `pageNumber` dropped, then each entry deletes or
        sets its name. */
    method UpdateFilters(entries: seq<Entry>)
      modifies this`searchParams, this`currentPage
      ensures currentPage == 1
      ensures searchParams == ApplyFilters(DeleteKey(old(searchParams), "pageNumber"), entries)
    {
      var params := new SearchParams(searchParams);
      currentPage := 1;
      params.Delete("pageNumber");
      var start := params.pairs;
      var i := 0;
      while i < |entries|
        invariant 0 <= i <= |entries|
        invariant params.pairs == ApplyFilters(start, entries[..i])
        invariant currentPage == 1
      {
        var key, value := entries[i].0, entries[i].1;
        ghost var before := params.pairs;
        if value.None? || value.value == "" {
          params.Delete(key);
        } else {
          params.Set(key, value.value);
        }
        assert params.pairs == ApplyEntry(before, entries[i]);
        assert entries[..i + 1][..i] == entries[..i];
        assert ApplyFilters(start, entries[..i + 1]) == ApplyEntry(ApplyFilters(start, entries[..i]), entries[i]);
        i := i + 1;
      }
      assert entries[..|entries|] == entries;
      searchParams := params.pairs;
    }

    /** `handleSearch`: the typed term becomes the keyword. */
    method HandleSearch()
      modifies this`searchParams, this`currentPage
      ensures currentPage == 1
      ensures searchParams == ApplyFilters(DeleteKey(old(searchParams), "pageNumber"), [("keyword", Some(searchTerm))])
    {
      UpdateFilters([("keyword", Some(searchTerm))]);
    }

    /** `handleCategoryChange`. */
    method HandleCategoryChange(value: string)
      modifies this`searchParams, this`currentPage, this`selectedCategory
      ensures selectedCategory == value && currentPage == 1
      ensures searchParams == ApplyFilters(DeleteKey(old(searchParams), "pageNumber"), [("category", Some(value))])
    {
      selectedCategory := value;
      UpdateFilters([("category", Some(value))]);
    }

    /** `handlePriceChange` on the inputs named "min" and "max": a non-empty entry is
        held as its number, an empty one clears the bound; the URL is untouched until
        the filter is applied. */
    method HandlePriceChange(isMax: bool, value: string, numberText: string -> string)
      modifies this`priceMin, this`priceMax
      ensures isMax ==> priceMin == old(priceMin) && priceMax == BoundText(if value != "" then Some(value) else None, numberText)
      ensures !isMax ==> priceMax == old(priceMax) && priceMin == BoundText(if value != "" then Some(value) else None, numberText)
    {
      var bound := BoundText(if value != "" then Some(value) else None, numberText);
      if isMax {
        priceMax := bound;
      } else {
        priceMin := bound;
      }
    }

    /** `handleApplyPriceFilter`: both bounds are written, an empty one removed. */
    method HandleApplyPriceFilter()
      modifies this`searchParams, this`currentPage
      ensures currentPage == 1
      ensures searchParams == ApplyFilters(DeleteKey(old(searchParams), "pageNumber"),
                                           [("priceMin", priceMin), ("priceMax", priceMax)])
    {
      UpdateFilters([("priceMin", priceMin), ("priceMax", priceMax)]);
    }

    /** `handleSortChange`: the selected "field-order" is split and both halves written. */
    method HandleSortChange(value: string)
      modifies this`searchParams, this`currentPage, this`sortBy, this`sortOrder
      ensures var (field, order) := SortSelection(value);
              sortBy == field && sortOrder == order.GetOr("") && currentPage == 1
              && searchParams == ApplyFilters(DeleteKey(old(searchParams), "pageNumber"),
                                              [("sortBy", Some(field)), ("sortOrder", order)])
    {
      var (field, order) := SortSelection(value);
      sortBy := field;
      sortOrder := order.GetOr("");
      UpdateFilters([("sortBy", Some(field)), ("sortOrder", order)]);
    }

    /** `handlePageChange`: pages outside [1, totalPages] are ignored. */
    method HandlePageChange(page: int)
      modifies this`currentPage
      ensures currentPage == ChangePage(old(currentPage), page, totalPages)
    {
      if page < 1 || page > totalPages {
        return;
      }
      currentPage := page;
    }

    /** `clearFilters`: the form goes back to its defaults and the URL loses every parameter. */
    method ClearFilters()
      modifies this`searchParams, this`searchTerm, this`selectedCategory, this`priceMin, this`priceMax,
               this`sortBy, this`sortOrder
      ensures searchParams == [] && searchTerm == "" && selectedCategory == ""
      ensures priceMin == None && priceMax == None && sortBy == "createdAt" && sortOrder == "desc"
    {
      searchTerm := "";
      selectedCategory := "";
      priceMin := None;
      priceMax := None;
      sortBy := "createdAt";
      sortOrder := "desc";
      searchParams := [];
    }
  }

  /** After `updateFilters` the page number is unset unless an entry sets it, every entry's
      name reads as the entry says, and every other name reads as before. */
  lemma UpdateFiltersEffect(query: Pairs, entries: seq<Entry>, key: string)
    requires forall a, b :: 0 <= a < b < |entries| ==> entries[a].0 != entries[b].0
    ensures var r := ApplyFilters(DeleteKey(query, "pageNumber"), entries);
            && (forall i :: 0 <= i < |entries| ==> Get(r, entries[i].0) == Expected(entries[i]))
            && ((forall i :: 0 <= i < |entries| ==> entries[i].0 != key)
                ==> Get(r, key) == (if key == "pageNumber" then None else Get(query, key)))
  {
    var start := DeleteKey(query, "pageNumber");
    forall i | 0 <= i < |entries|
      ensures Get(ApplyFilters(start, entries), entries[i].0) == Expected(entries[i])
    {
      EntriesTakeEffect(start, entries, i);
    }
    if forall i :: 0 <= i < |entries| ==> entries[i].0 != key {
      UntouchedKeysKept(start, entries, key);
      GetAfterDelete(query, "pageNumber", key);
    }
  }
}
