/** Pagination arithmetic shared by the server listing and the client pages:
    `Math.ceil(count / size)`, `Array.prototype.slice`, and the guard that only
    accepts page numbers within [1, totalPages]. */
module Paging {

  /** `Math.ceil(n / d)` for a non-negative count and a positive page size. */
  function CeilDiv(n: nat, d: nat): (r: nat)
    requires d > 0
    ensures n <= r * d
    ensures r == 0 || (r - 1) * d < n
  {
    if n % d == 0 then n / d else n / d + 1
  }

  /** An empty list has no pages, a non-empty one has at least one. */
  lemma CeilDivZero(n: nat, d: nat)
    requires d > 0
    ensures CeilDiv(n, d) == 0 <==> n == 0
  {
  }

  /** `Array.prototype.slice(start, end)`: negative bounds count from the end, all bounds are clamped. */
  function JsSlice<T>(s: seq<T>, start: int, end: int): (r: seq<T>)
    ensures |r| <= |s|
  {
    var n := |s|;
    var from := if start < 0 then (if n + start < 0 then 0 else n + start) else (if start < n then start else n);
    var to := if end < 0 then (if n + end < 0 then 0 else n + end) else (if end < n then end else n);
    if from < to then s[from..to] else []
  }

  /** Page `page` (counting from 1) of `size` elements: `slice((page - 1) * size, (page - 1) * size + size)`. */
  function PageSlice<T>(s: seq<T>, page: int, size: nat): seq<T> {
    JsSlice(s, (page - 1) * size, (page - 1) * size + size)
  }

  /** From page 1 on, a page is the contiguous block it names, holding at most `size` elements. */
  lemma PageSliceShape<T>(s: seq<T>, page: int, size: nat)
    requires page >= 1
    ensures var start := (page - 1) * size;
            var end := if start + size < |s| then start + size else |s|;
            PageSlice(s, page, size) == (if start < |s| then s[start..end] else [])
    ensures |PageSlice(s, page, size)| <= size
  {
    var start := (page - 1) * size;
    assert start >= 0 by {
      assert page - 1 >= 0;
    }
  }

  lemma MulMonotone(a: int, b: int, c: nat)
    requires a <= b
    ensures a * c <= b * c
  {
  }

  lemma SliceAt<T>(s: seq<T>, start: nat, size: nat, o: nat)
    requires o < size && start + o < |s|
    ensures o < |JsSlice(s, start, start + size)|
    ensures JsSlice(s, start, start + size)[o] == s[start + o]
  {
  }

  /** The element at offset o of block p lies on page p + 1, and that page exists. */
  lemma ElementOnPage<T>(s: seq<T>, p: nat, o: nat, size: nat)
    requires o < size && p * size + o < |s|
    ensures p + 1 <= CeilDiv(|s|, size)
    ensures o < |PageSlice(s, p + 1, size)|
    ensures PageSlice(s, p + 1, size)[o] == s[p * size + o]
  {
    var start := p * size;
    assert (p + 1 - 1) * size == start;
    SliceAt(s, start, size, o);
    var pages := CeilDiv(|s|, size);
    if pages < p + 1 {
      MulMonotone(pages, p, size);
      assert false;
    }
  }

  /** Every element sits on page j / size + 1, at offset j % size, and that page exists. */
  lemma EveryElementOnAPage<T>(s: seq<T>, j: nat, size: nat)
    requires size > 0 && j < |s|
    ensures 1 <= j / size + 1 <= CeilDiv(|s|, size)
    ensures j % size < |PageSlice(s, j / size + 1, size)|
    ensures PageSlice(s, j / size + 1, size)[j % size] == s[j]
  {
    var p, o := j / size, j % size;
    assert j == p * size + o;
    ElementOnPage(s, p, o, size);
  }

  /** `goToPage` / `handlePageChange`: move only to a page within [1, totalPages]. */
  function ChangePage(current: int, page: int, totalPages: int): (r: int)
    ensures r == page <==> (1 <= page <= totalPages || page == current)
    ensures r != page ==> r == current
  {
    if page < 1 || page > totalPages then current else page
  }
}
