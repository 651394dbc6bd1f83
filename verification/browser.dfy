/** What the screens see of the browser and the backend: the observable
    effects a handler emits (dialogs, navigation, requests, new
    windows, diagnostics). The browser calls themselves are not modelled; a
    handler returns the effects it would perform, in order. */
module Browser {

  datatype Verb = Get | Post | Delete

  datatype Effect =
    | Alert(message: string)
    | Confirm(message: string)
    | Navigate(path: string)
    | OpenWindow(url: string)      // window.open(url, "_blank", "noopener,noreferrer")
    | Request(verb: Verb, url: string)
    | LogError                     // console.error(...)

  /** The collection endpoint of the backend. */
  const ProductsUrl: string := "/api/products"

  /** Clicking a product card (Home and the public catalog): a new window is
      opened on the product's link when the link is a non-empty string
      (JavaScript truthiness of a string), and nothing happens otherwise. */
  function OpenLink(link: string): (effects: seq<Effect>)
    ensures effects == [] <==> link == ""
    ensures effects != [] ==> effects == [OpenWindow(link)]
  {
    if link != "" then [OpenWindow(link)] else []
  }
}
