/** The admin catalog screen (`ProductAdminList`): the same snapshot, filter
    and page state as the public list, with the first entry of the category
    list as its "all" sentinel, plus the confirm-gated delete that refetches
    on success. */
module ProductAdminScreen {
  import opened Wrappers
  import opened Browser
  import opened Catalog

  const DeleteQuestion: string := "정말 삭제하시겠습니까? 복구할 수 없습니다."
  const DeletedMessage: string := "삭제되었습니다."
  const DeleteFailedMessage: string := "삭제 실패"

  /** How a DELETE of one product settles. */
  datatype DeleteOutcome = DeleteOk | DeleteNotOk | DeleteThrown

  /** `/api/products/${id}`: the collection URL, a slash, then the id, which
      can be read back from the URL, so distinct ids give distinct URLs. */
  function ProductUrl(id: string): (url: string)
    ensures ProductsUrl + "/" <= url
    ensures url[|ProductsUrl| + 1..] == id
  {
    ProductsUrl + "/" + id
  }

  /** The body of the screen: the loading message, or the grid of the current
      page (an empty grid when there is nothing to show). */
  datatype AdminView = LoadingMessage | Grid(cards: seq<Product>)

  class ProductAdminList {
    const categories: seq<string>   // the category list; its first entry means "all"
    var activeFilter: string
    var currentPage: int
    var products: seq<Product>
    var loading: bool

    ghost predicate Valid()
      reads this
    {
      |categories| >= 1 && currentPage >= 1
    }

    constructor (categories: seq<string>)
      requires |categories| >= 1
      ensures Valid() && this.categories == categories
      ensures activeFilter == categories[0] && currentPage == 1
      ensures products == [] && loading
    {
      this.categories := categories;
      activeFilter := categories[0];
      currentPage := 1;
      products := [];
      loading := true;
    }

    function AllSentinel(): string
      reads this
      requires Valid()
    {
      categories[0]
    }

    /** The products the active filter lets through, in snapshot order. */
    function FilteredProducts(): (r: seq<Product>)
      reads this
      requires Valid()
      ensures activeFilter == AllSentinel() ==> r == products
      ensures activeFilter != AllSentinel() ==> forall p :: p in r <==> p in products && p.category == activeFilter
      ensures activeFilter != AllSentinel() ==> r == MatchCategory(products, activeFilter)
    {
      Filter(products, activeFilter, AllSentinel())
    }

    /** `Math.ceil(filteredProducts.length / 16)`. */
    function TotalPages(): (r: nat)
      reads this
      requires Valid()
      ensures |FilteredProducts()| <= r * PageSize
      ensures r > 0 ==> (r - 1) * PageSize < |FilteredProducts()|
      ensures r == 0 <==> FilteredProducts() == []
    {
      TotalPagesFor(|FilteredProducts()|)
    }

    /** The products of the current page: the page's 16-item window of the
        filtered products, clipped to their length. */
    function CurrentProducts(): (r: seq<Product>)
      reads this
      requires Valid()
      ensures |r| <= PageSize
      ensures var n := |FilteredProducts()|;
        r == FilteredProducts()[Min((currentPage - 1) * PageSize, n)..Min(currentPage * PageSize, n)]
      ensures r != [] <==> currentPage <= TotalPages()
    {
      VisiblePage(FilteredProducts(), currentPage)
    }

    /** `fetchProducts`, once the GET has settled: an ok response replaces the
        snapshot wholesale; a non-ok status or a thrown error keeps the old
        one (the error is logged). Loading ends in every case. */
    method FetchProducts(outcome: FetchOutcome) returns (effects: seq<Effect>)
      requires Valid()
      modifies this
      ensures Valid()
      ensures products == (if outcome.FetchOk? then outcome.data else old(products))
      ensures !loading
      ensures activeFilter == old(activeFilter) && currentPage == old(currentPage)
      ensures effects == [Request(Get, ProductsUrl)] + (if outcome.FetchThrown? then [LogError] else [])
    {
      effects := [Request(Get, ProductsUrl)];
      match outcome {
        case FetchOk(data) => products := data;
        case FetchNotOk =>
        case FetchThrown => effects := effects + [LogError];
      }
      loading := false;
    }

    /** `handlePageChange`: a page outside [1, totalPages] is ignored. */
    method HandlePageChange(page: int)
      requires Valid()
      modifies this
      ensures Valid()
      ensures currentPage == (if 1 <= page <= old(TotalPages()) then page else old(currentPage))
      ensures products == old(products) && activeFilter == old(activeFilter) && loading == old(loading)
    {
      if page >= 1 && page <= TotalPages() {
        currentPage := page;
      }
    }

    /** A filter button: the category becomes the active filter and the page
        goes back to 1, whatever it was. */
    method SelectFilter(cat: string)
      requires Valid()
      requires cat in categories
      modifies this
      ensures Valid()
      ensures activeFilter == cat && currentPage == 1
      ensures products == old(products) && loading == old(loading)
    {
      activeFilter := cat;
      currentPage := 1;
    }

    /** `handleDelete`: the user is asked first and nothing else happens
        unless they confirm. An ok DELETE is announced and followed by a
        refetch (settling with `refetch`); a non-ok one is announced as a
        failure; a thrown one is only logged. The filter and the page are
        never touched, whatever the outcome. */
    method HandleDelete(id: string, confirmed: bool, response: DeleteOutcome, refetch: FetchOutcome)
      returns (effects: seq<Effect>)
      requires Valid()
      modifies this
      ensures Valid()
      ensures activeFilter == old(activeFilter) && currentPage == old(currentPage)
      ensures products ==
                if confirmed && response.DeleteOk? && refetch.FetchOk? then refetch.data else old(products)
      ensures loading == if confirmed && response.DeleteOk? then false else old(loading)
      ensures effects == [Confirm(DeleteQuestion)] + (
                if !confirmed then []
                else
                  [Request(Delete, ProductUrl(id))] +
                  match response
                  case DeleteOk =>
                    [Alert(DeletedMessage), Request(Get, ProductsUrl)]
                    + (if refetch.FetchThrown? then [LogError] else [])
                  case DeleteNotOk => [Alert(DeleteFailedMessage)]
                  case DeleteThrown => [LogError])
    {
      effects := [Confirm(DeleteQuestion)];
      if confirmed {
        effects := effects + [Request(Delete, ProductUrl(id))];
        match response {
          case DeleteOk =>
            effects := effects + [Alert(DeletedMessage)];
            var fetched := FetchProducts(refetch);
            effects := effects + fetched;
          case DeleteNotOk =>
            effects := effects + [Alert(DeleteFailedMessage)];
          case DeleteThrown =>
            effects := effects + [LogError];
        }
      }
    }

    /** The body of the screen. */
    function View(): (v: AdminView)
      reads this
      requires Valid()
      ensures v.LoadingMessage? <==> loading
      ensures v.Grid? ==> v.cards == CurrentProducts()
      ensures v.Grid? ==> |v.cards| <= PageSize
      ensures v.Grid? ==> forall p :: p in v.cards ==> p in products
      ensures v.Grid? && activeFilter != AllSentinel() ==>
                forall p :: p in v.cards ==> p.category == activeFilter
    {
      if loading then LoadingMessage else Grid(CurrentProducts())
    }

    /** The pagination controls of this screen. */
    method Pagination() returns (bar: Option<PaginationBar>)
      requires Valid()
      ensures bar.None? <==> TotalPages() == 0
      ensures bar.Some? ==> bar.value.prevDisabled == (currentPage == 1)
      ensures bar.Some? ==> bar.value.nextDisabled == (currentPage == TotalPages())
      ensures bar.Some? ==> |bar.value.pages| == TotalPages()
      ensures bar.Some? ==> forall k :: 0 <= k < |bar.value.pages| ==>
                bar.value.pages[k].number == k + 1 && (bar.value.pages[k].active <==> k + 1 == currentPage)
    {
      bar := RenderPaginationBar(TotalPages(), currentPage);
    }
  }

  /** Seventeen products, the admin on page 2 (holding the seventeenth): after
      a confirmed delete whose refetch returns sixteen, the page stays 2 and
      shows nothing, since a delete never moves the page. */
  method DeleteEmptiesLastPageScenario(s: seq<Product>, id: string)
    requires |s| == 17
  {
    var admin := new ProductAdminList(["all"]);
    var _ := admin.FetchProducts(FetchOk(s));
    admin.HandlePageChange(2);
    assert admin.currentPage == 2 && admin.CurrentProducts() == [s[16]];
    var _ := admin.HandleDelete(id, true, DeleteOk, FetchOk(s[..16]));
    assert admin.currentPage == 2 && admin.TotalPages() == 1;
    assert admin.CurrentProducts() == [];
  }
}
