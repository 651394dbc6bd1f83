/** The product record and the derivation both catalog screens (the public
    list and the admin list) recompute on every render: filter the fetched
    snapshot by the active category, cut the 16-item page out of it, count
    the pages, and lay out the pagination controls. */
module Catalog {
  import opened Wrappers

  datatype Product = Product(
    id: string,
    image: string,
    category: string,
    name: string,
    price: Option<int>,   // None: the backend sent no price
    stock: string,
    description: string,
    link: string)

  /** How a GET of the product collection settles: an ok response with its
      decoded body, a non-ok status, or a thrown error. */
  datatype FetchOutcome = FetchOk(data: seq<Product>) | FetchNotOk | FetchThrown

  const PageSize: nat := 16

  function Min(a: int, b: int): int { if a <= b then a else b }

  // ---------------------------------------------------------------- filter

  /** `products.filter(p => p.category === c)`: the products of category `c`. */
  function MatchCategory(s: seq<Product>, c: string): (r: seq<Product>)
    ensures |r| <= |s|
    ensures forall i :: 0 <= i < |r| ==> r[i].category == c
    decreases |s|
  {
    if s == [] then []
    else
      var init, last := s[..|s| - 1], s[|s| - 1];
      MatchCategory(init, c) + (if last.category == c then [last] else [])
  }

  /** A product is kept exactly when it is in the snapshot and has category `c`. */
  lemma {:induction false} MatchCategoryMembers(s: seq<Product>, c: string)
    ensures forall p :: p in MatchCategory(s, c) <==> p in s && p.category == c
    decreases |s|
  {
    if s != [] {
      var init, last := s[..|s| - 1], s[|s| - 1];
      assert s == init + [last];
      MatchCategoryMembers(init, c);
    }
  }

  /** The positions of `s` whose product has category `c`, in increasing order. */
  function MatchingIndices(s: seq<Product>, c: string): (idx: seq<nat>)
    ensures forall k :: 0 <= k < |idx| ==> idx[k] < |s| && s[idx[k]].category == c
    ensures forall j, k :: 0 <= j < k < |idx| ==> idx[j] < idx[k]
    ensures forall i :: 0 <= i < |s| && s[i].category == c ==> i in idx
    decreases |s|
  {
    if s == [] then []
    else
      var n := |s| - 1;
      MatchingIndices(s[..n], c) + (if s[n].category == c then [n] else [])
  }

  /** The filtered sequence is exactly the products at the matching positions,
      in their original order: nothing dropped, nothing reordered. */
  lemma {:induction false} MatchCategoryByPosition(s: seq<Product>, c: string)
    ensures |MatchCategory(s, c)| == |MatchingIndices(s, c)|
    ensures forall k :: 0 <= k < |MatchingIndices(s, c)| ==>
              MatchCategory(s, c)[k] == s[MatchingIndices(s, c)[k]]
  {
    if s != [] {
      var n := |s| - 1;
      var init := s[..n];
      MatchCategoryByPosition(init, c);
      var r0, idx0 := MatchCategory(init, c), MatchingIndices(init, c);
      var tail := if s[n].category == c then [s[n]] else [];
      var tailIdx: seq<nat> := if s[n].category == c then [n] else [];
      assert s == init + [s[n]];
      MatchCategorySnoc(init, s[n], c);
      assert MatchingIndices(s, c) == idx0 + tailIdx;
      forall k | 0 <= k < |idx0|
        ensures (r0 + tail)[k] == s[(idx0 + tailIdx)[k]]
      {
        assert r0[k] == init[idx0[k]];
      }
    }
  }

  /** Filtering commutes with concatenation: the relative order of the kept
      products is the order of the snapshot. */
  lemma {:induction false} MatchCategoryAppend(a: seq<Product>, b: seq<Product>, c: string)
    ensures MatchCategory(a + b, c) == MatchCategory(a, c) + MatchCategory(b, c)
    decreases |b|
  {
    if b == [] {
      assert a + b == a;
    } else {
      var n := |b| - 1;
      var init := b[..n];
      assert b == init + [b[n]];
      assert a + b == (a + init) + [b[n]];
      var last := if b[n].category == c then [b[n]] else [];
      MatchCategorySnoc(a + init, b[n], c);
      MatchCategoryAppend(a, init, c);
      MatchCategorySnoc(init, b[n], c);
      var x, y := MatchCategory(a, c), MatchCategory(init, c);
      assert (x + y) + last == x + (y + last);
    }
  }

  /** One product appended at the end is kept, at the end, exactly when it
      matches. */
  lemma MatchCategorySnoc(s: seq<Product>, x: Product, c: string)
    ensures MatchCategory(s + [x], c) == MatchCategory(s, c) + (if x.category == c then [x] else [])
  {
    assert (s + [x])[..|s|] == s;
  }

  /** The filter of both catalog screens: the "all" sentinel leaves the
      snapshot as it is; any other value keeps the products whose category is
      exactly that string. */
  function Filter(products: seq<Product>, active: string, allSentinel: string): (r: seq<Product>)
    ensures active == allSentinel ==> r == products
    ensures active != allSentinel ==> forall p :: p in r <==> p in products && p.category == active
    ensures active != allSentinel ==> forall i :: 0 <= i < |r| ==> r[i].category == active
    ensures active != allSentinel ==> r == MatchCategory(products, active)
  {
    if active == allSentinel then products
    else
      MatchCategoryMembers(products, active);
      MatchCategory(products, active)
  }

  // ---------------------------------------------------------------- pages

  /** `Math.ceil(n / 16)`: the least page count whose pages hold `n` items. */
  function TotalPagesFor(n: nat): (r: nat)
    ensures n <= r * PageSize
    ensures r > 0 ==> (r - 1) * PageSize < n
    ensures r == 0 <==> n == 0
  {
    (n + PageSize - 1) / PageSize
  }

  /** The index `Array.prototype.slice` uses for an integer argument `k`: a
      negative one counts from the end, and the result is clipped to [0, len]. */
  function SliceIndex(k: int, len: nat): (r: nat)
    ensures r <= len
    ensures 0 <= k ==> r == Min(k, len)
    ensures k < 0 ==> r == if len + k < 0 then 0 else len + k
  {
    if k < 0 then (if len + k < 0 then 0 else len + k)
    else if k <= len then k else len
  }

  /** `s.slice(start, end)`. */
  function JsSlice<T>(s: seq<T>, start: int, end: int): (r: seq<T>)
    ensures |r| <= |s|
    ensures 0 <= start <= end ==> r == s[Min(start, |s|)..Min(end, |s|)]
    ensures 0 <= start <= end ==> |r| <= end - start
  {
    var from, to := SliceIndex(start, |s|), SliceIndex(end, |s|);
    if from < to then s[from..to] else []
  }

  /** The products shown on 1-based page `page`:
      `filtered.slice(page * 16 - 16, page * 16)`. */
  function VisiblePage(filtered: seq<Product>, page: int): (r: seq<Product>)
    ensures 1 <= page ==> |r| <= PageSize
    ensures 1 <= page ==>
              r == filtered[Min((page - 1) * PageSize, |filtered|)..Min(page * PageSize, |filtered|)]
    ensures 1 <= page ==> (r != [] <==> page <= TotalPagesFor(|filtered|))
  {
    var indexOfLastItem := page * PageSize;
    var indexOfFirstItem := indexOfLastItem - PageSize;
    JsSlice(filtered, indexOfFirstItem, indexOfLastItem)
  }

  /** Pages 1..k of `filtered`, concatenated in page order. */
  function Paginated(filtered: seq<Product>, k: nat): seq<Product>
  {
    if k == 0 then [] else Paginated(filtered, k - 1) + VisiblePage(filtered, k)
  }

  lemma {:induction false} PaginatedIsPrefix(filtered: seq<Product>, k: nat)
    ensures Paginated(filtered, k) == filtered[..Min(k * PageSize, |filtered|)]
  {
    if k > 0 {
      PaginatedIsPrefix(filtered, k - 1);
      var a := Min((k - 1) * PageSize, |filtered|);
      var b := Min(k * PageSize, |filtered|);
      assert a <= b by {
        assert (k - 1) * PageSize <= k * PageSize;
      }
      assert VisiblePage(filtered, k) == filtered[a..b];
      assert filtered[..a] + filtered[a..b] == filtered[..b];
    }
  }

  /** The pages partition the filtered sequence: pages 1..totalPages, read in
      order, give it back exactly (the last page may be short). */
  lemma PagesPartition(filtered: seq<Product>)
    ensures Paginated(filtered, TotalPagesFor(|filtered|)) == filtered
  {
    PaginatedIsPrefix(filtered, TotalPagesFor(|filtered|));
  }

  // ---------------------------------------------------------- pagination bar

  datatype PageButton = PageButton(number: int, active: bool)

  /** The controls under the grid: "<", the numbered buttons, ">". */
  datatype PaginationBar = PaginationBar(prevDisabled: bool, pages: seq<PageButton>, nextDisabled: bool)

  /** `renderPagination`: one button per page 1..totalPages, pushed in order;
      a button is active when it is the current page. */
  method RenderPageButtons(totalPages: nat, currentPage: int) returns (pages: seq<PageButton>)
    ensures |pages| == totalPages
    ensures forall k :: 0 <= k < |pages| ==> pages[k].number == k + 1
    ensures forall k :: 0 <= k < |pages| ==> (pages[k].active <==> k + 1 == currentPage)
  {
    pages := [];
    var i := 1;
    while i <= totalPages
      invariant 1 <= i <= totalPages + 1
      invariant |pages| == i - 1
      invariant forall k :: 0 <= k < |pages| ==> pages[k].number == k + 1
      invariant forall k :: 0 <= k < |pages| ==> (pages[k].active <==> k + 1 == currentPage)
    {
      pages := pages + [PageButton(i, currentPage == i)];
      i := i + 1;
    }
  }

  /** `{totalPages > 0 && ...}`: no controls at all without pages; otherwise
      "<" is disabled on the first page and ">" on the last. */
  method RenderPaginationBar(totalPages: nat, currentPage: int) returns (bar: Option<PaginationBar>)
    ensures bar.None? <==> totalPages == 0
    ensures bar.Some? ==> bar.value.prevDisabled == (currentPage == 1)
    ensures bar.Some? ==> bar.value.nextDisabled == (currentPage == totalPages)
    ensures bar.Some? ==> |bar.value.pages| == totalPages
    ensures bar.Some? ==> forall k :: 0 <= k < |bar.value.pages| ==>
              bar.value.pages[k].number == k + 1 && (bar.value.pages[k].active <==> k + 1 == currentPage)
  {
    if totalPages > 0 {
      var pages := RenderPageButtons(totalPages, currentPage);
      bar := Some(PaginationBar(currentPage == 1, pages, currentPage == totalPages));
    } else {
      bar := None;
    }
  }
}
