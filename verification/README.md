# Catalog site screens, modelled in Dafny

This project models the logic inside the screens of a small marketing and catalog
site for a heating-equipment company. The site is a React application, and most of it
is presentation. The modelled parts are:

- **Catalog derivation** (module `Catalog`). Both catalog screens do the same thing on
  every render. They filter the fetched product snapshot by the active category, where an
  "all" sentinel means no filter. They count the pages (`ceil(n / 16)`) and cut out the
  16-item slice of the current 1-based page. They also lay out the pagination controls.
  All of this is written once, as functions over `seq<Product>`. Lemmas show that the
  filter keeps exactly the matching positions in order, that the pages partition the
  filtered sequence, and that a page is non-empty exactly when its number is at most the
  page count.
- **Public catalog screen** (`ProductListScreen.ProductList`). This class holds the
  screen's state: the snapshot, `loading`, `currentPage` and `activeFilter`. Its methods
  are the handlers: fetch settling, page change and filter selection. Its "all" sentinel is
  the literal `"전체 제품"`.
- **Admin catalog screen** (`ProductAdminScreen.ProductAdminList`). It has the same state
  and handlers, and its sentinel is the first entry of the category list. It adds a
  delete flow gated by a confirm dialog. An ok delete refetches the snapshot. The filter
  and the page are never touched, so the current page can end up beyond the last page
  and show nothing.
- **Product registration** (`AddProductScreen.AddProductForm`). This covers the form
  state and the image picker. On submit it checks the image, name and price. It then
  builds the payload of seven fields in a fixed order and maps the backend's answer to a
  message and, on success, to navigation.
- **Navigation bar** (`TopMenu`). A path is classified by case-insensitive substring
  tests, in priority order. The highlighted item and the mobile menu form a small state
  machine.
- **Home teaser** (`HomeScreen`). It shows the first four products of one fetch. The view
  is one of three: loading, cards or empty. A price of 0 or an absent price shows the
  contact label.

The browser and the backend are not modelled. Network calls, `alert`, `confirm`,
`navigate`, `window.open` and `console.error` become inputs and outputs. The way a
request settles is a parameter (`FetchOutcome`, `DeleteOutcome`, `PostOutcome`), as is
the user's answer to the confirm dialog. The effects a handler performs come back as a
`seq<Browser.Effect>`, in order. Each request settles atomically.

Two things are parameters because the repository does not contain them: the category
list and the admin screen's sentinel. Both come from a language file.

Behaviour of the code worth noting:

- A failed fetch leaves the snapshot as it was. It does not empty it, so a failed
  first fetch leaves the snapshot empty.
- Neither catalog screen renders an explicit empty state. When nothing is loading, they
  render the grid of the current page, which may be empty. Only the home teaser has an
  empty message.
- A delete, whether it succeeds or fails, never resets the page or the filter.
- A refetch after a delete does not set `loading` back to true.
- A thrown delete error is only logged. No message is shown.
- The price is checked only for being non-empty. It is not checked for being
  non-negative or numeric. The description's 2000-character bound is only a counter.

## Model

| member | source | states |
|---|---|---|
| `Catalog.MatchCategory` | src/screens/topwebpro/menu/ProductList.tsx:46 | every kept product has the filter's category, and the result is never longer than the snapshot |
| `ProductAdminScreen.ProductUrl` | src/screens/topwebpro/menu/ProductAdminList.tsx:64 | the DELETE goes to the collection URL followed by "/" and the id, and the id can be read back from the URL, so distinct ids give distinct URLs |
| `Catalog.MatchCategoryMembers` | src/screens/topwebpro/menu/ProductList.tsx:46 | a product is kept exactly when it is in the snapshot with the filter's category |
| `Catalog.MatchCategoryByPosition` | src/screens/topwebpro/menu/ProductList.tsx:44-46 | the filtered sequence is exactly the snapshot's products at the matching positions, in increasing position order |
| `Catalog.MatchCategoryAppend` | src/screens/topwebpro/menu/ProductList.tsx:46 | filtering distributes over concatenation, so the snapshot's relative order is kept |
| `Catalog.Filter` | src/screens/topwebpro/menu/ProductAdminList.tsx:44-46 | the "all" sentinel gives the snapshot unchanged; any other filter gives the order-preserving category filter `MatchCategory`, which keeps exactly the products of that category |
| `Catalog.TotalPagesFor` | src/screens/topwebpro/menu/ProductList.tsx:52 | the page count is the least `r` with `n <= 16 r` (that is, `ceil(n/16)`), and it is 0 exactly when `n` is 0 |
| `Catalog.JsSlice` | src/screens/topwebpro/menu/ProductList.tsx:51 | for `0 <= start <= end`, `slice(start, end)` is the sub-sequence between both bounds clipped to the length, and it is never longer than `end - start` |
| `Catalog.VisiblePage` | src/screens/topwebpro/menu/ProductList.tsx:48-51 | for a page `p >= 1`, the page is `filtered[(p-1)*16 .. min(p*16, n)]` clipped to the length, it holds at most 16 items, and it is non-empty exactly when `p <= totalPages` |
| `Catalog.PagesPartition` | src/screens/topwebpro/menu/ProductAdminList.tsx:48-52 | pages 1..totalPages concatenated in order give back the filtered sequence exactly |
| `Catalog.RenderPageButtons` | src/screens/topwebpro/menu/ProductList.tsx:66-80 | the loop pushes exactly `totalPages` buttons numbered 1..totalPages, and only the button equal to the current page is active |
| `Catalog.RenderPaginationBar` | src/screens/topwebpro/menu/ProductList.tsx:134-149 | there are no controls when there are no pages; otherwise "<" is disabled iff the page is 1, ">" is disabled iff the page is the last, and the numbered buttons are as above |
| `Browser.OpenLink` | src/screens/topwebpro/menu/ProductList.tsx:60-64 | clicking a card opens its link in a new window exactly when the link is non-empty, and otherwise does nothing (the same handler is at Home.tsx:46-50) |
| `ProductListScreen.ProductList.constructor` | src/screens/topwebpro/menu/ProductList.tsx:21-24 | the screen starts with the sentinel filter, page 1, an empty snapshot and `loading` set; that is page 1 of 0 pages, so `currentPage <= totalPages` is not an invariant |
| `ProductListScreen.ProductList.FilteredProducts` | src/screens/topwebpro/menu/ProductList.tsx:44-46 | the literal `"전체 제품"` gives the snapshot unchanged; any other filter keeps exactly the products of that category, in snapshot order (`MatchCategory`) |
| `ProductListScreen.ProductList.TotalPages` | src/screens/topwebpro/menu/ProductList.tsx:52 | the page count is the least number of 16-item pages holding the filtered products, and it is 0 exactly when nothing passes the filter |
| `ProductListScreen.ProductList.CurrentProducts` | src/screens/topwebpro/menu/ProductList.tsx:48-51 | the current page is the 16-item window `(page-1)*16 .. page*16` of the filtered products clipped to their length; it holds at most 16 and is non-empty exactly when the page is at most the page count |
| `ProductListScreen.ProductList.FetchProducts` | src/screens/topwebpro/menu/ProductList.tsx:30-42 | an ok response replaces the snapshot wholesale; a non-ok or thrown one keeps it and only a thrown one is logged; `loading` ends false; filter and page are kept; `currentPage >= 1` is kept |
| `ProductListScreen.ProductList.HandlePageChange` | src/screens/topwebpro/menu/ProductList.tsx:54-58 | the page becomes `p` exactly when `1 <= p <= totalPages`, and otherwise nothing changes |
| `ProductListScreen.ProductList.SelectFilter` | src/screens/topwebpro/menu/ProductList.tsx:100-103 | the category becomes the filter and the page becomes 1, whatever it was; the snapshot is untouched |
| `ProductListScreen.ProductList.View` | src/screens/topwebpro/menu/ProductList.tsx:110-132 | the loading message is shown exactly while loading; otherwise the grid is exactly the current page of the filtered products, so it holds at most 16 snapshot products, all of the filter's category when a filter is active |
| `ProductListScreen.ProductList.Pagination` | src/screens/topwebpro/menu/ProductList.tsx:134-149 | this screen's controls match its page count and current page as `RenderPaginationBar` states |
| `ProductAdminScreen.ProductAdminList.constructor` | src/screens/topwebpro/menu/ProductAdminList.tsx:21-24 | the screen starts with `categories[0]` as the filter, page 1, an empty snapshot and `loading` set |
| `ProductAdminScreen.ProductAdminList.FilteredProducts` | src/screens/topwebpro/menu/ProductAdminList.tsx:44-46 | `categories[0]` gives the snapshot unchanged; any other filter keeps exactly the products of that category, in snapshot order (`MatchCategory`) |
| `ProductAdminScreen.ProductAdminList.TotalPages` | src/screens/topwebpro/menu/ProductAdminList.tsx:52 | the page count is the least number of 16-item pages holding the filtered products, and it is 0 exactly when nothing passes the filter |
| `ProductAdminScreen.ProductAdminList.CurrentProducts` | src/screens/topwebpro/menu/ProductAdminList.tsx:48-51 | the current page is the 16-item window `(page-1)*16 .. page*16` of the filtered products clipped to their length; it holds at most 16 and is non-empty exactly when the page is at most the page count |
| `ProductAdminScreen.ProductAdminList.FetchProducts` | src/screens/topwebpro/menu/ProductAdminList.tsx:30-42 | a failed fetch (non-ok or thrown) leaves the previous snapshot in place, an ok one replaces it, and `loading` ends false |
| `ProductAdminScreen.ProductAdminList.HandlePageChange` | src/screens/topwebpro/menu/ProductAdminList.tsx:54-58 | a page outside `[1, totalPages]` is a no-op; a page inside it becomes current |
| `ProductAdminScreen.ProductAdminList.SelectFilter` | src/screens/topwebpro/menu/ProductAdminList.tsx:114-117 | selecting a filter always resets the page to 1 |
| `ProductAdminScreen.ProductAdminList.HandleDelete` | src/screens/topwebpro/menu/ProductAdminList.tsx:60-77 | without confirmation only the question is shown and nothing changes. An ok DELETE alerts and then refetches. A non-ok one alerts "삭제 실패" and keeps the snapshot. A thrown one is only logged. Filter and page never change |
| `ProductAdminScreen.ProductAdminList.View` | src/screens/topwebpro/menu/ProductAdminList.tsx:124-147 | the loading message is shown exactly while loading; otherwise the grid is exactly the current page of the filtered products, so it holds at most 16 snapshot products of the active category |
| `ProductAdminScreen.ProductAdminList.Pagination` | src/screens/topwebpro/menu/ProductAdminList.tsx:79-165 | one button per page numbered 1..totalPages with only the current one active; "<" and ">" are disabled at the first and last page; there are no controls without pages |
| `AddProductScreen.CategoryOptions` | src/screens/topwebpro/menu/AddProduct.tsx:78 | the select offers the category list without its first (sentinel) entry, in order |
| `AddProductScreen.MissingRequired` | src/screens/topwebpro/menu/AddProduct.tsx:31 | the form passes exactly when an image is picked and the name and the price are non-empty; a price of "0" passes |
| `AddProductScreen.FailureMessage` | src/screens/topwebpro/menu/AddProduct.tsx:57 | the message is `"등록 실패: "` followed by the backend's `error` when it is a non-empty string, and by `"서버 오류"` otherwise |
| `AddProductScreen.AddProductForm.constructor` | src/screens/topwebpro/menu/AddProduct.tsx:11-18 | the form starts empty, with no image and no preview, and with `categories[1]`, the first option, as category |
| `AddProductScreen.AddProductForm.HandleImageChange` | src/screens/topwebpro/menu/AddProduct.tsx:20-26 | the first picked file becomes the image and its URL the preview; with no file, neither changes |
| `AddProductScreen.AddProductForm.SetCategory` | src/screens/topwebpro/menu/AddProduct.tsx:77 | the category changes only to one of the options, so it is always an option |
| `AddProductScreen.AddProductForm.SetName` | src/screens/topwebpro/menu/AddProduct.tsx:114 | the name field takes the typed value |
| `AddProductScreen.AddProductForm.SetPrice` | src/screens/topwebpro/menu/AddProduct.tsx:128 | the price field takes the typed text |
| `AddProductScreen.AddProductForm.SetStock` | src/screens/topwebpro/menu/AddProduct.tsx:138 | the stock field takes the typed text |
| `AddProductScreen.AddProductForm.SetDescription` | src/screens/topwebpro/menu/AddProduct.tsx:151 | the description takes the typed text at any length |
| `AddProductScreen.AddProductForm.SetLink` | src/screens/topwebpro/menu/AddProduct.tsx:164 | the link field takes the typed text |
| `AddProductScreen.AddProductForm.HandleSubmit` | src/screens/topwebpro/menu/AddProduct.tsx:28-63 | with no image, an empty name or an empty price there is only the validation alert and no request. Otherwise exactly seven fields are posted, in the order image, name, category, price, stock, description, link, each with its current value. An ok answer alerts and then navigates to `/ProductAdminList`. A non-ok answer alerts the failure message. A thrown error, or an unreadable error body, alerts the communication error. Navigation happens exactly on an ok answer, and the form is never changed |
| `TopMenu.ActiveItem` | src/screens/topwebpro/menu/TopMenu.tsx:15-21 | the result is "about", "work", "products" or none; "about" wins whenever the lower-cased path contains "/about"; none exactly when the lower-cased path contains none of the four segments |
| `TopMenu.IncludesMeansContains` | src/screens/topwebpro/menu/TopMenu.tsx:17-19 | `includes` holds exactly when the segment occurs at some position of the path |
| `TopMenu.ActiveItemClassifies` | src/screens/topwebpro/menu/TopMenu.tsx:15-21 | in priority order: "about" iff the lower-cased path contains "/about"; "work" iff "/work" and not "/about"; "products" iff "/productlist" or "/products" and neither earlier one; none iff no segment occurs |
| `TopMenu.ActiveItemIgnoresCase` | src/screens/topwebpro/menu/TopMenu.tsx:16 | a path and its lower-cased and upper-cased spellings classify the same way |
| `TopMenu.AboutPathClassifies` | src/screens/topwebpro/menu/TopMenu.tsx:57 | the about item's target `/About` classifies as "about" |
| `TopMenu.WorkPathClassifies` | src/screens/topwebpro/menu/TopMenu.tsx:65 | the work item's target `/Work` classifies as "work" |
| `TopMenu.ProductListPathClassifies` | src/screens/topwebpro/menu/TopMenu.tsx:73 | the products item's target `/ProductList` classifies as "products" |
| `TopMenu.RootPathClassifiesToNone` | src/screens/topwebpro/menu/TopMenu.tsx:48 | the logo's target `/` belongs to no item; after the logo is clicked from another path, the path effect then resets the "home" highlight to none, while a logo click on `/` itself changes no path, runs no effect and keeps "home" |
| `TopMenu.AdminPathClassifiesToNone` | src/screens/topwebpro/menu/TopMenu.tsx:19 | `/productAdminlist` contains neither `/productlist` nor `/products` and belongs to no item |
| `TopMenu.AddProductPathClassifiesToNone` | src/screens/topwebpro/menu/TopMenu.tsx:17-20 | `/addproduct` belongs to no item |
| `TopMenu.NavBar.constructor` | src/screens/topwebpro/menu/TopMenu.tsx:7-33 | after mounting and the first run of the path effect, the path's own item is highlighted and the mobile menu is closed |
| `TopMenu.NavBar.PathnameChanged` | src/screens/topwebpro/menu/TopMenu.tsx:31-33 | the effect runs only when the path actually changes, and it then resets the highlight to the new path's item |
| `TopMenu.NavBar.HandleMenuClick` | src/screens/topwebpro/menu/TopMenu.tsx:35-39 | a click navigates, closes the mobile menu and highlights the clicked item |
| `TopMenu.NavBar.MouseEnter` | src/screens/topwebpro/menu/TopMenu.tsx:55 | hovering highlights the hovered item |
| `TopMenu.NavBar.MouseLeave` | src/screens/topwebpro/menu/TopMenu.tsx:56 | leaving resets the highlight to the current path's item |
| `TopMenu.NavBar.ToggleMobileMenu` | src/screens/topwebpro/menu/TopMenu.tsx:88 | the toggle flips the mobile menu and changes nothing else |
| `TopMenu.NavBar.SolidBackground` | src/screens/topwebpro/menu/TopMenu.tsx:42 | away from `/` the bar is always drawn as scrolled; on `/` it follows the scroll flag |
| `HomeScreen.Teaser` | src/screens/topwebpro/Home.tsx:33 | the teaser is the first `min(4, n)` backend products, in backend order |
| `HomeScreen.PriceLabelOf` | src/screens/topwebpro/Home.tsx:143 | the contact label is shown exactly when the price is absent or 0; otherwise the amount is shown |
| `HomeScreen.HomeTeaser.constructor` | src/screens/topwebpro/Home.tsx:21-22 | the teaser starts empty and loading |
| `HomeScreen.HomeTeaser.FetchProducts` | src/screens/topwebpro/Home.tsx:28-40 | an ok fetch shows the teaser of the data; a non-ok or thrown fetch leaves the list as it was (empty on the page's one fetch); `loading` ends false in every case |
| `HomeScreen.HomeTeaser.View` | src/screens/topwebpro/Home.tsx:124-153 | exactly one of three: the loading message while loading, otherwise the cards when there are products, otherwise the empty message |

## Left out

- Network I/O, `response.json()`, `alert`, `window.confirm`, `navigate`, `window.open` and `console.error` are not modelled. Each becomes an outcome parameter or an emitted `Effect`.
- Async timing is not modelled. Each request settles atomically when its handler runs. Overlapping fetches or deletes are not modelled, because the source does not coordinate them.
- Styled-components definitions and layout are left out. The card contents (image, category tag, name) are not modelled either.
- Number formatting (`toLocaleString`) is browser behaviour. `PriceLabelOf` carries the amount, not its text.
- The image `onError` placeholder is left out. `URL.createObjectURL` is a parameter (`objectUrl`) of `HandleImageChange`.
- The scroll listener is a floating-point browser value. Its flag is a parameter of `SolidBackground`. The bar's style currently ignores the flag it is given, so the flag is modelled as passed and not as drawn.
- The search inputs are inert in the source. No search behaviour is modelled.
- The static pages (About, contact, BottomMenu, work) and the App routing with `HashShim` are not part of this model. Whether `/ProductAdminList` reaches the route `/productAdminlist` depends on the router's matching.
- `TopMenu.NavBar.PathnameChanged`: models a path change inside one mounted bar (such as `/about` to `/About`). Every page renders its own bar, so a change of route mounts a new one (see `TopMenu.NavBar.constructor`): its mobile menu starts closed, while `PathnameChanged` keeps the menu as it was. The highlight is the same either way.
- The language file with the category list is not part of this model. The list is a parameter of each screen.
- `AddProductScreen.AddProductForm.constructor`: requires at least two categories. With a shorter list the form's initial category `categories[1]` would be `undefined`, which is not modelled.
- `ProductAdminScreen.ProductAdminList.constructor`: requires at least one category. With an empty list the initial filter and sentinel `categories[0]` would be `undefined`, which is not modelled.
- `TopMenu.Lower`: lower-cases ASCII letters only. JavaScript's `toLowerCase` also maps other Unicode letters, and the paths involved here are ASCII.
- `Catalog.Product`: the price is `Option<int>`. A NaN price and a price sent as text are not modelled.
- The delete button's `stopPropagation` is not modelled. Admin cards have no click handler, so there is nothing for it to isolate in the model.
- Home's "view more" link only navigates, and it is not modelled.
- The backend's behaviour is not modelled. This includes id uniqueness and whether a deleted id is really gone from the refetched data.
