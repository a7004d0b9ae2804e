# Product dashboard: listing controller and HTTP client

A Dafny model of the core of a browser admin page for a remote product
catalogue (the `dummyjson.com` demo service). Two parts are modelled:

- **The HTTP client** (`js/api.js`): how `getProducts` builds its query
  string (`limit` whenever it is a number, `skip` only when it is a number
  above zero, `?` only when something was appended), the URL, method,
  headers and body of `getProductById`, `deleteProductById`, `addProduct`
  and `updateProduct`, and the failure policy of every call (any failure
  resolves to `undefined`, modelled as `None`). The built URLs are read
  back by an independent decoder (`Api.QueryOf`, `Api.IntParam`) and by a
  router for the service's interface (`Api.Route`), and the builders are
  proved to round-trip through them.
- **The listing controller** (`js/app.js`): `appState` (pagination, modal,
  filters) plus which of the four panels `showState` displays (Loading,
  Table, Empty, Error), the rows last handed to `displayProducts` and the
  pagination bar last written. Each handler is a pure transition on
  `Dashboard.State` and a method of `Dashboard.Controller` that performs it
  in place on the fields. Handlers are split at their `await`: the awaited
  reply is a parameter of type `Option<PageResult>` (or `Option<Product>`),
  and `renderFault` says whether painting the rows threw. That is the one
  way this model reaches the `catch` blocks of `loadProducts` and
  `applyFilters`: the client functions of `js/api.js` catch every failure
  themselves (`Dashboard.SwallowedLoadFailure`). The pure helpers are functions: the stock badge
  tier, the pagination arithmetic, the category narrowing and
  `sortProducts`, modelled as a stable insertion sort driven by the same
  comparators (`Array.prototype.sort` is stable).

Files: `wrappers.dfy` (Option), `text.dfy` (decimal numerals, split/join,
code-point string order, trimming), `catalog.dfy` (Product, PageResult),
`api.dfy`, `sorting.dfy`, `view.dfy`, `dashboard.dfy`.

The model follows the code: a stock count of zero or below gets the red
badge (the test is `stock > 0`); the sort is stable, as
`Array.prototype.sort` is; the end of the pagination range is not clamped
to the total (`View.UnclampedEndExample`).

## Model

| member | source | states |
|---|---|---|
| `Api.WithDefault` | js/api.js:1 | an absent `limit`/`skip` becomes the number given as its default (10 and 0); a passed value is kept |
| `Api.Serialize` | js/api.js:8 | the query string is empty exactly when no parameter was appended |
| `Api.ListParams` | js/api.js:3-5 | at most two parameters; when both are present `limit` comes first and `skip` second |
| `Api.UrlWith` | js/api.js:7-9 | the URL is the bare products URL exactly when there are no parameters (no `?` is added for an empty query) |
| `Api.ListUrl` | js/api.js:1-9 | the service reads back from the built URL exactly the parameters `getProducts` appended |
| `Api.GetProductsUrl` | js/api.js:1-9 | the method that appends the parameters one by one builds exactly `ListUrl(limit, skip)` |
| `Api.ListUrlCarries` | js/api.js:1-9 | reading the built URL back gives `limit` exactly when it was a number (10 when absent) and `skip` exactly when it was a number above 0 |
| `Api.ListUrlBare` | js/api.js:7-9 | the URL is the bare products URL iff nothing was appended (limit not a number and skip not a positive number) |
| `Api.UrlWithRoundTrip` | js/api.js:7-9 | base + `?` + serialized parameters decodes back to the same parameter list |
| `Api.DefaultListUrl` | js/api.js:1-9 | default arguments give `https://dummyjson.com/products?limit=10`, with no `skip` |
| `Api.IdText` | js/api.js:20 | the interpolated id is one non-empty path segment; a missing id gives `null`, a numeric id gives a numeral that reads back as that id |
| `Api.ListRequest` | js/api.js:7-10 | the listing request is a GET that the service reads as a listing with exactly the appended parameters |
| `Api.GetByIdRequest` | js/api.js:18-22 | for an id that is one path segment, a plain GET read as fetching that product |
| `Api.DeleteRequest` | js/api.js:28-33 | for an id that is one path segment, a DELETE read as removing that product |
| `Api.AddRequest` | js/api.js:40-49 | a POST to `/products/add` with the JSON content type, read as creating a product from exactly the form |
| `Api.UpdateRequest` | js/api.js:56-65 | for an id that is one path segment, a JSON PUT read as replacing that product by exactly the form |
| `Api.LimitOnlyUrl` | js/api.js:1-9 | `limit` 100 with no `skip` gives `.../products?limit=100` |
| `Api.Settle` | js/api.js:10-15 | a call yields data only when the reply was parsed; a network failure and an unparsable body both become None (the caller sees `undefined`) |
| `Text.IntToStringRoundTrip` | js/api.js:4-5 | the numeral appended for a number reads back as that number |
| `Text.NatToString` | js/api.js:4-5 | numerals are non-empty digit strings with no leading zero |
| `Text.Trim` | js/app.js:337 | the result is the slice of the input left after cutting leading and trailing white space: everything cut is white space, the result starts and ends with none, and it is empty iff the input was all white space |
| `Text.LexCompare` | js/app.js:403-405 | the stand-in for `localeCompare` is a three-way comparison that is 0 exactly on equal strings |
| `Text.LexCompareFlip` | js/app.js:403-405 | swapping the titles negates the comparison (what the `-desc` title comparator relies on) |
| `Text.LexCompareTransitive` | js/app.js:403-405 | the title order is transitive |
| `Sorting.ParseKeyName` | js/app.js:401-417 | each of the eight `sortBy` values selects its own field and direction |
| `Sorting.ParseSortKey` | js/app.js:401-419 | a recognised `sortBy` value is exactly the name of the key it selects; any other value is the `default` branch |
| `Sorting.Compare` | js/app.js:402-417 | the comparator returns -1, 0 or 1 by sign, and at most 0 exactly when the two products are in the field's order for the key's direction (`-desc` swaps the operands) |
| `Sorting.Sort` | js/app.js:399-417 | the sorted copy has exactly the input's products, each as often as before |
| `Sorting.Insert` | js/app.js:399-417 | inserting adds exactly the one product to the list's products |
| `Sorting.SortSorts` | js/app.js:402-417 | the sorted copy is ordered by the chosen field and direction |
| `Sorting.SortIsStable` | js/app.js:402-417 | products the comparator ties keep their original relative order |
| `Sorting.SortProducts` | js/app.js:398-421 | the result is a permutation of the input; ordered for a known key; the unchanged copy for any other key |
| `Sorting.PriceDescExample` | js/app.js:408-409 | "price-desc" on prices 10, 30, 20 gives 30, 20, 10 |
| `Sorting.PriceDescOrder` | js/app.js:408-409 | sorting prices 10, 30, 20 by price, descending, gives 30, 20, 10 |
| `View.StockTierOf` | js/app.js:78-85 | green iff stock > 50, yellow iff 0 < stock <= 50, red iff stock <= 0 |
| `View.BadgeClass` | js/app.js:78-85 | the class the if-chain picks is always the class of the stock count's tier |
| `View.StockTierMonotone` | js/app.js:78-85 | more stock never gives a worse badge |
| `View.StockTierBoundaries` | js/app.js:78-85 | stock 0 is red, 50 is yellow, 51 is green, with the code's CSS classes |
| `View.PageBar` | js/app.js:141-155 | start is skip + 1, end is the next page's skip (a full page, unclamped), prev disabled iff page 1, next disabled iff the next page would start at or past the total |
| `View.FilteredBar` | js/app.js:157-168 | start 1, end and total the result count, both buttons disabled |
| `View.FilteredBarIsSinglePage` | js/app.js:157-168 | the filtered bar equals the bar of page 1 of a one-page listing of all results |
| `View.PagesTile` | js/app.js:143-144 | page p+1 starts right after page p ends |
| `View.UnclampedEndExample` | js/app.js:141-155 | page 1 of 5 products at 10 per page shows 1 to 10 of 5, both buttons disabled |
| `View.NarrowToCategory` | js/app.js:374-378 | a subsequence of the input holding exactly its products of that category, each as often as before |
| `View.FilteredProducts` | js/app.js:360-382 | the shown list has the fetched products (only those of the category when search and category are both set) and is ordered when the sort key is known |
| `View.UnsortedIsSubsequence` | js/app.js:374-382 | without a known sort key the shown list is a subsequence of the fetched one |
| `Dashboard.InitialInv` | js/app.js:14-29 | the initial `appState` satisfies the controller invariant |
| `Dashboard.LoadUrl` | js/app.js:43-47 | the service reads from the request the page size as `limit`, and `skip` (page-1) times the page size only when that is above 0 |
| `Dashboard.AfterLoad` | js/app.js:41-62 | a non-empty reply sets the page and total and shows its products, under the current page's bar (or the error panel, bar unchanged, if painting throws); no reply or no products shows Empty and changes nothing else |
| `Dashboard.LoadKeepsInv` | js/app.js:41-62 | loading a page of at least 1 keeps the invariant |
| `Dashboard.LoadRequestsPage` | js/app.js:45-47 | the request carries limit 10 and skip (page-1)*10, with no skip on page 1 |
| `Dashboard.FirstPageUrl` | js/app.js:41-47 | page 1 is fetched from `.../products?limit=10` |
| `Dashboard.PrevPage` | js/app.js:171-175 | the previous handler loads page p-1 iff p > 1, so the page stays at least 1 |
| `Dashboard.NextPage` | js/app.js:177-182 | the next handler loads p+1 iff p*n < total, so the loaded page starts inside the collection |
| `Dashboard.AfterPrev` | js/app.js:171-175 | on page 1 the previous handler changes nothing |
| `Dashboard.AfterNext` | js/app.js:177-182 | at or past the total the next handler changes nothing |
| `Dashboard.ButtonsMatchHandlers` | js/app.js:153-182 | when the bar shows the current page, each button is enabled iff its handler would load a page |
| `Dashboard.PagingStaysInRange` | js/app.js:170-183 | prev and next keep the invariant (page >= 1) and next never moves to a page starting past the total |
| `Dashboard.FilterSource` | js/app.js:363-372 | the search endpoint iff a search is set; the category endpoint iff only a category is set; otherwise the plain listing |
| `Dashboard.AllProductsUrl` | js/app.js:363-371 | with no search and no category, whatever the sort key, the source is `.../products?limit=100` |
| `Dashboard.AfterFilter` | js/app.js:357-396 | pagination and filters are unchanged; Table iff the filtered list is non-empty and painting succeeds, showing that list over the filtered bar; Error (bar unchanged) iff painting throws; Empty iff the list is empty, leaving rows and bar as they were |
| `Dashboard.SearchWithinCategory` | js/app.js:374-378 | search plus category shows only that category's search results, each as often as returned |
| `Dashboard.FilteredTableDisablesPaging` | js/app.js:384-388 | a filtered table has both pagination buttons disabled |
| `Dashboard.FilterKeepsInv` | js/app.js:357-396 | filtering keeps the invariant |
| `Dashboard.SwallowedLoadFailure` | js/app.js:45-59 | a request the client failed (network or body) reaches `loadProducts` as `undefined`: the state is as after an empty reply, with only the panel changed, to Empty, never Error |
| `Dashboard.SwallowedFilterFailure` | js/app.js:361-393 | the same for `applyFilters`: a failed source request leaves everything but the panel, which becomes Empty |
| `Dashboard.BlankSearchIsNoSearch` | js/app.js:336-338 | typing only white space does not select the search endpoint |
| `Dashboard.AfterSearchInput` | js/app.js:336-339 | the search query becomes the trimmed input, category, sort and page are kept, and a table shows the list filtered by the new filters |
| `Dashboard.AfterCategoryChange` | js/app.js:342-345 | the category becomes the selected value, search, sort and page are kept, and a table shows the list filtered by the new filters |
| `Dashboard.AfterSortChange` | js/app.js:347-350 | the sort key becomes the selected value, search, category and page are kept, and a table shows the list filtered by the new filters |
| `Dashboard.AfterClear` | js/app.js:470-483 | all three filters become empty and page 1 is loaded |
| `Dashboard.Opened` | js/app.js:254-272 | the modal opens in the given mode; the id is the product's id unless it is missing or 0 (`|| null`); nothing else changes |
| `Dashboard.Closed` | js/app.js:274-280 | the modal closes, back to add mode with no id; nothing else changes |
| `Dashboard.SaveRequest` | js/app.js:297-302 | in add mode the request creates a product from the form; in edit mode it replaces the current id (possibly `null`) by the form |
| `Dashboard.AfterSave` | js/app.js:305-306 | after saving, the modal is closed in add mode and the filters are untouched |
| `Dashboard.AfterDelete` | js/app.js:234-238 | an unconfirmed delete changes nothing |
| `Dashboard.MutationsReloadFromServer` | js/app.js:234-306 | after save or delete the rows are untouched or exactly the server's page, and the current page is kept |
| `Dashboard.HandlersKeepInv` | js/app.js:185-483 | clear, save, delete, the three filter handlers, and opening and closing the modal all keep the invariant |
| `Dashboard.Controller.constructor` | js/app.js:14-29 | the fields start as `appState` is declared |
| `Dashboard.Controller.BeginLoad` | js/app.js:43-47 | shows Loading and requests the page's URL; nothing else changes |
| `Dashboard.Controller.FinishLoad` | js/app.js:49-61 | updates the fields as `AfterLoad` |
| `Dashboard.Controller.LoadProducts` | js/app.js:41-62 | requests the page's URL, updates as `AfterLoad`, keeps the invariant for page >= 1 |
| `Dashboard.Controller.PrevClicked` | js/app.js:171-175 | updates as `AfterPrev`, requests page p-1 only when p > 1, keeps the invariant |
| `Dashboard.Controller.NextClicked` | js/app.js:177-182 | updates as `AfterNext`, requests p+1 only when p*n < total, keeps the invariant |
| `Dashboard.Controller.RetryClicked` | js/app.js:248-252 | reloads page 1 |
| `Dashboard.Controller.BeginFilters` | js/app.js:359-372 | shows Loading and picks the source as `FilterSource` |
| `Dashboard.Controller.FinishFilters` | js/app.js:374-391 | narrows, sorts and shows as `AfterFilter` |
| `Dashboard.Controller.ApplyFilters` | js/app.js:357-396 | picks the source, updates as `AfterFilter`, keeps the invariant |
| `Dashboard.Controller.SearchInput` | js/app.js:334-340 | stores the trimmed query and filters |
| `Dashboard.Controller.CategoryChanged` | js/app.js:342-345 | stores the category and filters |
| `Dashboard.Controller.SortChanged` | js/app.js:347-350 | stores the sort key and filters |
| `Dashboard.Controller.ClearAllFilters` | js/app.js:470-483 | empties the filters and reloads page 1 |
| `Dashboard.Controller.OpenModal` | js/app.js:254-272 | updates the modal as `Opened` |
| `Dashboard.Controller.CloseModal` | js/app.js:274-280 | updates the modal as `Closed` |
| `Dashboard.Controller.AddClicked` | js/app.js:186-194 | opens the modal in add mode with no product |
| `Dashboard.Controller.EditClicked` | js/app.js:224-232 | fetches the row's product by id and opens the modal in edit mode with the reply |
| `Dashboard.Controller.DeleteClicked` | js/app.js:234-244 | when confirmed, deletes by the row's id and reloads the current page whatever the delete returned |
| `Dashboard.Controller.SaveClicked` | js/app.js:282-314 | sends add or update by mode, closes the modal, reloads the current page |

## Left out

- Rendering: the row markup of `createProductRow`, `displayProducts`' DOM work, `updateActiveFilters`/`createFilterTag`, filling the form in `openModal`, the save button's text and disabled state, and every `setup*` listener registration. The model keeps what they decide: the panel, the rows handed to the renderer, and the pagination bar's numbers and button states.
- js/state.js: its effect is the `panel` field.
- `fetch`, `response.json()` and the asynchronous scheduling: replies are parameters. Concurrency (a handler re-triggered while a request is in flight) and the `debounce` timer of the search box are not modelled; js/utils.js is not part of this model.
- The disabled attribute of the pagination buttons blocking clicks: the handlers are modelled as their code; `Dashboard.ButtonsMatchHandlers` shows the two agree while the bar shows the current page.
- Which records make painting throw (for instance a product without a numeric price reaching `toFixed`): abstracted to the `renderFault` parameter, which the model applies after the rows are handed over. The `catch` blocks of the edit, delete and save handlers are not modelled, because the client functions of js/api.js they await catch every failure themselves.
- Dashboard.AfterFilter: does not model `sortProducts` throwing before anything is painted (`localeCompare` called on a product whose title is not a string, js/app.js:403). The source then shows the error panel with the rows unchanged. The model's `renderFault` case instead sets the rows to the shown list.
- Dashboard.AfterFilter: does not model `searchProducts` or `getProductsByCategory` throwing. Their bodies are not part of this model, so nothing shows that they catch their own failures as the functions of js/api.js do.
- Floating point: prices and ratings are `real` and only compared; `toFixed(2)` formatting is not modelled. `limit` and `skip` are integers: NaN and fractional numbers are not modelled.
- Text.IntToStringRoundTrip: holds for every integer in the model, but in the program only for integers below 2^53 in magnitude. Larger Numbers are not exact, and `String(n)` switches to exponent form from 1e21.
- Percent-encoding in `URLSearchParams`: only numerals are ever appended, and they need none.
- `localeCompare` collation: replaced by code-point lexicographic order.
- Text.Trim: recognises ASCII white space, no-break space, the line and paragraph separators and the byte order mark, not every Unicode space separator that `trim` removes.
- `loadCategories` and the bodies of `searchProducts`, `getAllCategories` and `getProductsByCategory`: js/app.js imports them from js/api.js, which does not define them; their replies are parameters and their URLs are not modelled.
- Module loading: with js/api.js as it stands, the named imports at js/app.js:7-9 fail when the module is loaded, so no handler would run. The model describes the controller as if those three exports existed.
- A reply that has no `products` array (an error body from the service) behaves like no reply in both `loadProducts` and `applyFilters`, so it is modelled as `None`.
- `alert` dialogs; `confirm` is the `confirmed` parameter of the delete handler.
- The page's initial markup: the model starts on the Loading panel, which the first `loadProducts` shows at once.
