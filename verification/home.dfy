/** The product teaser of the home page (`Home`): the first four products of
    one fetch, a three-way render decision and the price label of a card. */
module HomeScreen {
  import opened Wrappers
  import opened Browser
  import opened Catalog

  /** How many products the home page shows. */
  const TeaserSize: nat := 4

  /** The teaser area: the loading message, the grid of cards, or the
      "no products yet" message. */
  datatype TeaserView = LoadingMessage | Cards(items: seq<Product>) | EmptyMessage

  /** The price line of a card: the amount in won, or the "ask for a price"
      label. */
  datatype PriceLabel = Won(amount: int) | ContactForPrice

  /** `data.slice(0, 4)`: the first four products in backend order, or all of
      them when there are fewer. */
  function Teaser(data: seq<Product>): (shown: seq<Product>)
    ensures |shown| == Min(TeaserSize, |data|)
    ensures shown <= data
  {
    JsSlice(data, 0, TeaserSize)
  }

  /** `product.price ? ... : priceContact`: an absent price and a price of 0
      are both falsy and ask the customer to get in touch. */
  function PriceLabelOf(price: Option<int>): (tag: PriceLabel)
    ensures tag.ContactForPrice? <==> price.None? || price.value == 0
    ensures tag.Won? ==> tag.amount == price.value && tag.amount != 0
  {
    match price
    case Some(amount) => if amount != 0 then Won(amount) else ContactForPrice
    case None => ContactForPrice
  }

  class HomeTeaser {
    var products: seq<Product>
    var loading: bool

    constructor ()
      ensures products == [] && loading
    {
      products := [];
      loading := true;
    }

    /** `fetchProducts`, once the GET has settled: an ok response shows the
        first four products; otherwise the list stays as it was (empty, on
        the one fetch the page makes) and the error, if thrown, is logged.
        Loading ends in every case. */
    method FetchProducts(outcome: FetchOutcome) returns (effects: seq<Effect>)
      modifies this
      ensures products == (if outcome.FetchOk? then Teaser(outcome.data) else old(products))
      ensures !loading
      ensures effects == [Request(Get, ProductsUrl)] + (if outcome.FetchThrown? then [LogError] else [])
    {
      effects := [Request(Get, ProductsUrl)];
      match outcome {
        case FetchOk(data) => products := JsSlice(data, 0, TeaserSize);
        case FetchNotOk =>
        case FetchThrown => effects := effects + [LogError];
      }
      loading := false;
    }

    /** Exactly one of the three: loading first, then the grid when there is
        something to show, else the empty message. */
    function View(): (v: TeaserView)
      reads this
      ensures v.LoadingMessage? <==> loading
      ensures v.Cards? <==> !loading && products != []
      ensures v.EmptyMessage? <==> !loading && products == []
      ensures v.Cards? ==> v.items == products
    {
      if loading then LoadingMessage
      else if |products| > 0 then Cards(products)
      else EmptyMessage
    }
  }

  /** The page's single fetch: after it the teaser holds at most four
      products, in backend order, and a failed fetch leaves it empty. */
  method MountScenario(outcome: FetchOutcome)
  {
    var home := new HomeTeaser();
    var _ := home.FetchProducts(outcome);
    assert |home.products| <= TeaserSize;
    assert !outcome.FetchOk? ==> home.View() == EmptyMessage;
  }
}
