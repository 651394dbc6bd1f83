/** The public catalog screen (`ProductList`): the fetched snapshot, the
    active category filter and the 1-based current page, with the handlers
    that change them. What the screen shows is derived on every render by
    the functions of module Catalog. */
module ProductListScreen {
  import opened Wrappers
  import opened Browser
  import opened Catalog

  /** This screen's "all products" sentinel, a literal in its source. */
  const AllProducts: string := "전체 제품"

  /** The body of the screen: the loading message, or the grid of the current
      page (an empty grid when there is nothing to show). */
  datatype ListView = LoadingMessage | Grid(cards: seq<Product>)

  class ProductList {
    const categories: seq<string>   // the category list: one filter button each
    var activeFilter: string
    var currentPage: int
    var products: seq<Product>
    var loading: bool

    /** The page number never drops below 1. It may exceed the page count:
        with no products there is page 1 of 0. */
    ghost predicate Valid()
      reads this
    {
      currentPage >= 1
    }

    constructor (categories: seq<string>)
      ensures Valid() && this.categories == categories
      ensures activeFilter == AllProducts && currentPage == 1
      ensures products == [] && loading
      ensures TotalPages() == 0 && CurrentProducts() == []
    {
      this.categories := categories;
      activeFilter := AllProducts;
      currentPage := 1;
      products := [];
      loading := true;
    }

    /** The products the active filter lets through, in snapshot order. */
    function FilteredProducts(): (r: seq<Product>)
      reads this
      ensures activeFilter == AllProducts ==> r == products
      ensures activeFilter != AllProducts ==> forall p :: p in r <==> p in products && p.category == activeFilter
      ensures activeFilter != AllProducts ==> r == MatchCategory(products, activeFilter)
    {
      Filter(products, activeFilter, AllProducts)
    }

    /** `Math.ceil(filteredProducts.length / 16)`. */
    function TotalPages(): (r: nat)
      reads this
      ensures |FilteredProducts()| <= r * PageSize
      ensures r > 0 ==> (r - 1) * PageSize < |FilteredProducts()|
      ensures r == 0 <==> FilteredProducts() == []
    {
      TotalPagesFor(|FilteredProducts()|)
    }

    /** The products of the current page: the page's 16-item window of the
        filtered products, clipped to their length. */
    function CurrentProducts(): (r: seq<Product>)
      reads this
      requires Valid()
      ensures |r| <= PageSize
      ensures var n := |FilteredProducts()|;
        r == FilteredProducts()[Min((currentPage - 1) * PageSize, n)..Min(currentPage * PageSize, n)]
      ensures r != [] <==> currentPage <= TotalPages()
    {
      VisiblePage(FilteredProducts(), currentPage)
    }

    /** `fetchProducts`, once the GET has settled: an ok response replaces the
        snapshot wholesale; a non-ok status or a thrown error keeps the old
        one (the error is logged). Loading ends in every case. */
    method FetchProducts(outcome: FetchOutcome) returns (effects: seq<Effect>)
      requires Valid()
      modifies this
      ensures Valid()
      ensures products == (if outcome.FetchOk? then outcome.data else old(products))
      ensures !loading
      ensures activeFilter == old(activeFilter) && currentPage == old(currentPage)
      ensures effects == [Request(Get, ProductsUrl)] + (if outcome.FetchThrown? then [LogError] else [])
    {
      effects := [Request(Get, ProductsUrl)];
      match outcome {
        case FetchOk(data) => products := data;
        case FetchNotOk =>
        case FetchThrown => effects := effects + [LogError];
      }
      loading := false;
    }

    /** `handlePageChange`: a page outside [1, totalPages] is ignored. */
    method HandlePageChange(page: int)
      requires Valid()
      modifies this
      ensures Valid()
      ensures currentPage == (if 1 <= page <= old(TotalPages()) then page else old(currentPage))
      ensures products == old(products) && activeFilter == old(activeFilter) && loading == old(loading)
    {
      if page >= 1 && page <= TotalPages() {
        currentPage := page;
      }
    }

    /** A filter button: the category becomes the active filter and the page
        goes back to 1, whatever it was. */
    method SelectFilter(cat: string)
      requires Valid()
      requires cat in categories
      modifies this
      ensures Valid()
      ensures activeFilter == cat && currentPage == 1
      ensures products == old(products) && loading == old(loading)
    {
      activeFilter := cat;
      currentPage := 1;
    }

    /** The body of the screen. */
    function View(): (v: ListView)
      reads this
      requires Valid()
      ensures v.LoadingMessage? <==> loading
      ensures v.Grid? ==> v.cards == CurrentProducts()
      ensures v.Grid? ==> |v.cards| <= PageSize
      ensures v.Grid? ==> forall p :: p in v.cards ==> p in products
      ensures v.Grid? && activeFilter != AllProducts ==>
                forall p :: p in v.cards ==> p.category == activeFilter
    {
      if loading then LoadingMessage else Grid(CurrentProducts())
    }

    /** The pagination controls of this screen. */
    method Pagination() returns (bar: Option<PaginationBar>)
      ensures bar.None? <==> TotalPages() == 0
      ensures bar.Some? ==> bar.value.prevDisabled == (currentPage == 1)
      ensures bar.Some? ==> bar.value.nextDisabled == (currentPage == TotalPages())
      ensures bar.Some? ==> |bar.value.pages| == TotalPages()
      ensures bar.Some? ==> forall k :: 0 <= k < |bar.value.pages| ==>
                bar.value.pages[k].number == k + 1 && (bar.value.pages[k].active <==> k + 1 == currentPage)
    {
      bar := RenderPaginationBar(TotalPages(), currentPage);
    }
  }

  /** Twenty products, no filter: page 1 holds the first sixteen, page 2 the
      last four, and a request for page 3 is ignored. */
  method TwentyProductsScenario(s: seq<Product>)
    requires |s| == 20
  {
    var list := new ProductList([AllProducts]);
    var _ := list.FetchProducts(FetchOk(s));
    assert list.TotalPages() == 2;
    assert list.CurrentProducts() == s[0..16];
    list.HandlePageChange(2);
    assert list.CurrentProducts() == s[16..20];
    list.HandlePageChange(3);
    assert list.currentPage == 2;
  }

  /** Selecting a category with five products gives one page holding all five,
      from whichever page the list was on. */
  method FiveBoilersScenario(s: seq<Product>, boiler: string)
    requires boiler != AllProducts
    requires |s| == 18 && |MatchCategory(s, boiler)| == 5
  {
    var list := new ProductList([AllProducts, boiler]);
    var _ := list.FetchProducts(FetchOk(s));
    list.HandlePageChange(2);
    list.SelectFilter(boiler);
    assert list.currentPage == 1;
    assert list.TotalPages() == 1;
    assert list.CurrentProducts() == MatchCategory(s, boiler);
  }
}
