/** The listing controller: the page's `appState` record, which of the four
    panels (loading, table, empty, error) is showing, the rows and
    pagination bar last painted, and the event handlers that change them.

    Every handler is split at its `await`: the awaited reply (already turned
    into "no data" by the client when the request failed) is a parameter, and
    so is `renderFault`, whether painting the rows raised an exception, the
    only way the handlers' `catch` blocks can be reached. Each transition is
    a pure function on `State`; the `Controller` class performs it in place. */
module Dashboard {
  import opened Wrappers
  import opened Catalog
  import opened Sorting
  import opened View
  import Api

  const PerPage: int := 10

  /** The limit `applyFilters` uses to fetch "all" products. */
  const FilterFetchLimit: int := 100

  /** Which of the four state containers `showState` has made visible. */
  datatype Panel = Loading | Table | Empty | Error

  datatype ModalMode = Add | Edit

  datatype Pagination = Pagination(currentPage: int, productsPerPage: int, totalProducts: int)

  datatype Modal = Modal(mode: ModalMode, currentProductId: Option<int>)

  datatype Filters = Filters(searchQuery: string, selectedCategory: string, sortBy: string)

  const NoFilters: Filters := Filters("", "", "")

  /** `appState` together with what the page shows: the panel, the list
      last handed to `displayProducts`, the pagination bar last written, and
      whether the product modal is open. */
  datatype State = State(
    pagination: Pagination,
    modal: Modal,
    filters: Filters,
    panel: Panel,
    rows: seq<Product>,
    bar: Option<PaginationBar>,
    modalOpen: bool)

  /** `appState` as the script declares it. The markup's initial panel is
      not part of this model; the first `loadProducts` shows Loading at once. */
  function Initial(): State {
    State(Pagination(1, PerPage, 0), Modal(Add, None), NoFilters, Loading, [], None, false)
  }

  function CurrentPageBar(p: Pagination): PaginationBar {
    PageBar(p.currentPage, p.productsPerPage, p.totalProducts)
  }

  /** What every handler keeps true: ten products per page, a current page of
      at least 1, no product id while adding, and a table that is never empty
      and sits above the bar of either the current page or the filtered list. */
  predicate Inv(s: State) {
    && s.pagination.productsPerPage == PerPage
    && s.pagination.currentPage >= 1
    && (s.modal.mode == Add ==> s.modal.currentProductId == None)
    && (s.panel == Table ==>
          && s.rows != []
          && (s.bar == Some(CurrentPageBar(s.pagination)) || s.bar == Some(FilteredBar(|s.rows|))))
  }

  lemma InitialInv()
    ensures Inv(Initial())
  {
  }

  // ---------------------------------------------------------------------
  // loadProducts

  /** `data?.products?.length` is truthy. */
  predicate HasProducts(data: Option<PageResult>) {
    data.Some? && |data.value.products| > 0
  }

  /** The URL `loadProducts(page)` fetches: the service reads from it the
      page size as `limit`, and the products before the page as `skip` when
      there are any. */
  function LoadUrl(s: State, page: int): (url: string)
    ensures Api.IntParam(url, "limit") == Some(s.pagination.productsPerPage)
    ensures var skip := Offset(page, s.pagination.productsPerPage);
      Api.IntParam(url, "skip") == if skip > 0 then Some(skip) else None
  {
    var n := s.pagination.productsPerPage;
    Api.ListUrlCarries(Api.Num(n), Api.Num(Offset(page, n)));
    Api.ListUrl(Api.Num(n), Api.Num(Offset(page, n)))
  }

  /** `loadProducts(page)` once `getProducts` has answered `data`. */
  function AfterLoad(s: State, page: int, data: Option<PageResult>, renderFault: bool): (r: State)
    ensures r.panel == Table <==> HasProducts(data) && !renderFault
    ensures r.panel == Error <==> HasProducts(data) && renderFault
    ensures r.panel == Empty <==> !HasProducts(data)
    ensures HasProducts(data) ==>
      && r.pagination == s.pagination.(currentPage := page, totalProducts := data.value.total)
      && r.rows == data.value.products
    ensures !HasProducts(data) ==> r.pagination == s.pagination && r.rows == s.rows && r.bar == s.bar
    ensures r.panel == Table ==> r.bar == Some(CurrentPageBar(r.pagination))
    ensures r.panel == Error ==> r.bar == s.bar
    ensures r.filters == s.filters && r.modal == s.modal && r.modalOpen == s.modalOpen
  {
    if HasProducts(data) then
      var pagination := s.pagination.(currentPage := page, totalProducts := data.value.total);
      var shown := s.(pagination := pagination, panel := Table, rows := data.value.products);
      if renderFault then shown.(panel := Error) else shown.(bar := Some(CurrentPageBar(pagination)))
    else
      s.(panel := Empty)
  }

  lemma LoadKeepsInv(s: State, page: int, data: Option<PageResult>, renderFault: bool)
    requires Inv(s) && page >= 1
    ensures Inv(AfterLoad(s, page, data, renderFault))
  {
  }

  /** `loadProducts(page)` asks the service for `limit` 10 and, past the
      first page, `skip` (page - 1) * 10; page 1 sends no `skip` at all. */
  lemma LoadRequestsPage(s: State, page: int)
    requires Inv(s) && page >= 1
    ensures Api.IntParam(LoadUrl(s, page), "limit") == Some(PerPage)
    ensures Api.IntParam(LoadUrl(s, page), "skip") == if page > 1 then Some((page - 1) * PerPage) else None
  {
    Api.ListUrlCarries(Api.Num(PerPage), Api.Num(Offset(page, PerPage)));
  }

  /** The first page is fetched from `.../products?limit=10`. */
  lemma FirstPageUrl(s: State)
    requires Inv(s)
    ensures LoadUrl(s, 1) == Api.ProductsBase + "?limit=10"
  {
    Api.DefaultListUrl();
    assert Api.ListUrl(Api.Num(10), Api.Num(0)) == Api.ListUrl(Api.Absent, Api.Absent);
  }

  // ---------------------------------------------------------------------
  // The pagination buttons

  /** The page the "previous" handler loads, if it loads one. */
  function PrevPage(s: State): (p: Option<int>)
    ensures p.Some? <==> s.pagination.currentPage > 1
    ensures p.Some? ==> p.value == s.pagination.currentPage - 1 && p.value >= 1
  {
    if s.pagination.currentPage > 1 then Some(s.pagination.currentPage - 1) else None
  }

  /** The page the "next" handler loads, if it loads one: only while the
      page after the current one still starts inside the collection. */
  function NextPage(s: State): (p: Option<int>)
    ensures p.Some? <==> Offset(s.pagination.currentPage + 1, s.pagination.productsPerPage) < s.pagination.totalProducts
    ensures p.Some? ==> p.value == s.pagination.currentPage + 1
    ensures p.Some? ==> Offset(p.value, s.pagination.productsPerPage) < s.pagination.totalProducts
  {
    var pg := s.pagination;
    if pg.currentPage * pg.productsPerPage < pg.totalProducts then Some(pg.currentPage + 1) else None
  }

  /** The "previous" handler: nothing happens on page 1. */
  function AfterPrev(s: State, data: Option<PageResult>, renderFault: bool): (r: State)
    ensures PrevPage(s).None? ==> r == s
    ensures r.filters == s.filters && r.modal == s.modal
  {
    match PrevPage(s)
    case None => s
    case Some(p) => AfterLoad(s, p, data, renderFault)
  }

  /** The "next" handler: nothing happens once the current page reaches the
      reported total. */
  function AfterNext(s: State, data: Option<PageResult>, renderFault: bool): (r: State)
    ensures NextPage(s).None? ==> r == s
    ensures r.filters == s.filters && r.modal == s.modal
  {
    match NextPage(s)
    case None => s
    case Some(p) => AfterLoad(s, p, data, renderFault)
  }

  /** When the bar shows the current page, a button is enabled exactly when
      its handler would load a page. */
  lemma ButtonsMatchHandlers(s: State)
    requires Inv(s) && s.bar == Some(CurrentPageBar(s.pagination))
    ensures !s.bar.value.prevDisabled <==> PrevPage(s).Some?
    ensures !s.bar.value.nextDisabled <==> NextPage(s).Some?
  {
  }

  /** Paging never leaves page 1 or more, and never reaches a page starting
      past the last product the service reported. */
  lemma PagingStaysInRange(s: State, data: Option<PageResult>, renderFault: bool)
    requires Inv(s)
    ensures Inv(AfterPrev(s, data, renderFault)) && Inv(AfterNext(s, data, renderFault))
    ensures var r := AfterNext(s, data, renderFault);
      r.pagination.currentPage == s.pagination.currentPage
      || Offset(r.pagination.currentPage, PerPage) < s.pagination.totalProducts
  {
    match PrevPage(s) {
      case None =>
      case Some(p) => LoadKeepsInv(s, p, data, renderFault);
    }
    match NextPage(s) {
      case None =>
      case Some(p) => LoadKeepsInv(s, p, data, renderFault);
    }
  }

  // ---------------------------------------------------------------------
  // applyFilters and the filter controls

  /** The request `applyFilters` makes: search first, then category, then
      the whole listing with limit 100. */
  datatype Source = Search(query: string) | ByCategory(slug: string) | AllProducts(url: string)

  function FilterSource(f: Filters): (src: Source)
    ensures src.Search? <==> f.searchQuery != ""
    ensures src.ByCategory? <==> f.searchQuery == "" && f.selectedCategory != ""
    ensures src.Search? ==> src.query == f.searchQuery
    ensures src.ByCategory? ==> src.slug == f.selectedCategory
  {
    if f.searchQuery != "" then Search(f.searchQuery)
    else if f.selectedCategory != "" then ByCategory(f.selectedCategory)
    else AllProducts(Api.ListUrl(Api.Num(FilterFetchLimit), Api.Absent))
  }

  /** With no search and no category, whatever the sort key, the source is
      `.../products?limit=100`. */
  lemma AllProductsUrl(f: Filters)
    requires f.searchQuery == "" && f.selectedCategory == ""
    ensures FilterSource(f) == AllProducts(Api.ProductsBase + "?limit=100")
  {
    Api.LimitOnlyUrl();
  }

  /** The list `applyFilters` shows for reply `data`. */
  function Shown(f: Filters, data: Option<PageResult>): seq<Product> {
    var source := if data.Some? then data.value.products else [];
    FilteredProducts(source, f.searchQuery, f.selectedCategory, f.sortBy)
  }

  /** `applyFilters` once its source has answered `data`. */
  function AfterFilter(s: State, data: Option<PageResult>, renderFault: bool): (r: State)
    ensures r.pagination == s.pagination && r.filters == s.filters
    ensures r.modal == s.modal && r.modalOpen == s.modalOpen
    ensures r.panel == Table <==> Shown(s.filters, data) != [] && !renderFault
    ensures r.panel == Error <==> Shown(s.filters, data) != [] && renderFault
    ensures r.panel == Empty <==> Shown(s.filters, data) == []
    ensures r.panel != Empty ==> r.rows == Shown(s.filters, data)
    ensures r.panel == Empty ==> r.rows == s.rows && r.bar == s.bar
    ensures r.panel == Table ==> r.bar == Some(FilteredBar(|r.rows|))
    ensures r.panel == Error ==> r.bar == s.bar
  {
    var shown := Shown(s.filters, data);
    if |shown| > 0 then
      var t := s.(panel := Table, rows := shown);
      if renderFault then t.(panel := Error) else t.(bar := Some(FilteredBar(|shown|)))
    else
      s.(panel := Empty)
  }

  /** A search combined with a category shows only that category's products
      from the search results, each as often as the service returned it. */
  lemma SearchWithinCategory(s: State, data: Option<PageResult>, renderFault: bool)
    requires s.filters.searchQuery != "" && s.filters.selectedCategory != ""
    requires data.Some?
    ensures var r := AfterFilter(s, data, renderFault);
      r.panel != Empty ==>
        && (forall i :: 0 <= i < |r.rows| ==> r.rows[i].category == s.filters.selectedCategory)
        && (forall p: Product :: p.category == s.filters.selectedCategory ==> multiset(r.rows)[p] == multiset(data.value.products)[p])
  {
  }

  /** A filtered table disables both pagination buttons. */
  lemma FilteredTableDisablesPaging(s: State, data: Option<PageResult>, renderFault: bool)
    ensures var r := AfterFilter(s, data, renderFault);
      r.panel == Table ==> r.bar.value.prevDisabled && r.bar.value.nextDisabled
  {
  }

  lemma FilterKeepsInv(s: State, data: Option<PageResult>, renderFault: bool)
    requires Inv(s)
    ensures Inv(AfterFilter(s, data, renderFault))
  {
  }

  /** A request that failed inside the client reaches `loadProducts` as
      `undefined`: the page then looks exactly as after an empty reply, only
      the panel changes, and it is Empty, never Error. */
  lemma SwallowedLoadFailure(s: State, page: int, o: Api.Outcome<PageResult>, renderFault: bool,
                             total: int, skip: int, limit: int)
    requires !o.Parsed?
    ensures AfterLoad(s, page, Api.Settle(o), renderFault)
         == AfterLoad(s, page, Some(PageResult([], total, skip, limit)), renderFault)
    ensures AfterLoad(s, page, Api.Settle(o), renderFault) == s.(panel := Empty)
  {
  }

  /** The same for `applyFilters`, whichever source it asked. */
  lemma SwallowedFilterFailure(s: State, o: Api.Outcome<PageResult>, renderFault: bool,
                               total: int, skip: int, limit: int)
    requires !o.Parsed?
    ensures AfterFilter(s, Api.Settle(o), renderFault)
         == AfterFilter(s, Some(PageResult([], total, skip, limit)), renderFault)
    ensures AfterFilter(s, Api.Settle(o), renderFault) == s.(panel := Empty)
  {
    NothingShownFromNothing(s.filters, PageResult([], total, skip, limit));
  }

  lemma NothingShownFromNothing(f: Filters, empty: PageResult)
    requires empty.products == []
    ensures Shown(f, None) == [] && Shown(f, Some(empty)) == []
  {
  }

  /** The search box handler stores the trimmed input, keeps the other two
      filters and the page, and shows the list filtered by all three. */
  function AfterSearchInput(s: State, value: string, data: Option<PageResult>, renderFault: bool): (r: State)
    ensures r.filters == Filters(Text.Trim(value), s.filters.selectedCategory, s.filters.sortBy)
    ensures r.pagination == s.pagination
    ensures r.panel == Table ==> r.rows == Shown(r.filters, data) && r.bar == Some(FilteredBar(|r.rows|))
  {
    AfterFilter(s.(filters := s.filters.(searchQuery := Text.Trim(value))), data, renderFault)
  }

  /** The category selector's handler: the new category with the old search
      and sort. */
  function AfterCategoryChange(s: State, value: string, data: Option<PageResult>, renderFault: bool): (r: State)
    ensures r.filters == Filters(s.filters.searchQuery, value, s.filters.sortBy)
    ensures r.pagination == s.pagination
    ensures r.panel == Table ==> r.rows == Shown(r.filters, data) && r.bar == Some(FilteredBar(|r.rows|))
  {
    AfterFilter(s.(filters := s.filters.(selectedCategory := value)), data, renderFault)
  }

  /** The sort selector's handler: the new sort key with the old search and
      category. */
  function AfterSortChange(s: State, value: string, data: Option<PageResult>, renderFault: bool): (r: State)
    ensures r.filters == Filters(s.filters.searchQuery, s.filters.selectedCategory, value)
    ensures r.pagination == s.pagination
    ensures r.panel == Table ==> r.rows == Shown(r.filters, data) && r.bar == Some(FilteredBar(|r.rows|))
  {
    AfterFilter(s.(filters := s.filters.(sortBy := value)), data, renderFault)
  }

  /** Typing only white space clears the search instead of searching for it. */
  lemma BlankSearchIsNoSearch(s: State, value: string)
    requires forall i :: 0 <= i < |value| ==> Text.IsSpace(value[i])
    ensures !FilterSource(s.filters.(searchQuery := Text.Trim(value))).Search?
  {
  }

  /** `clearAllFilters`: empty filters, then `loadProducts()` of page 1. */
  function AfterClear(s: State, data: Option<PageResult>, renderFault: bool): (r: State)
    ensures r.filters == NoFilters
    ensures r.pagination.currentPage == if HasProducts(data) then 1 else s.pagination.currentPage
  {
    AfterLoad(s.(filters := NoFilters), 1, data, renderFault)
  }

  // ---------------------------------------------------------------------
  // The modal and the mutations

  /** `openModal(mode, productData)`: the id is `productData?.id || null`, so
      a missing product and a product with id 0 both give no id. */
  function Opened(s: State, mode: ModalMode, product: Option<Product>): (r: State)
    ensures r.modal.mode == mode && r.modalOpen
    ensures r.modal.currentProductId.Some? <==> product.Some? && product.value.id != 0
    ensures r.modal.currentProductId.Some? ==> r.modal.currentProductId.value == product.value.id
    ensures r == s.(modal := r.modal, modalOpen := true)
  {
    var id := if product.Some? && product.value.id != 0 then Some(product.value.id) else None;
    s.(modal := Modal(mode, id), modalOpen := true)
  }

  /** `closeModal()`: hidden, back to adding with no product. */
  function Closed(s: State): (r: State)
    ensures r.modal == Modal(Add, None) && !r.modalOpen
    ensures r == s.(modal := r.modal, modalOpen := false)
  {
    s.(modal := Modal(Add, None), modalOpen := false)
  }

  /** The request the save button sends: `addProduct` in add mode, which
      creates a product from the form, and `updateProduct` of the current id
      (possibly "null") otherwise, which replaces that product by the form. */
  function SaveRequest(s: State, form: Api.FormData): (r: Api.Request)
    ensures s.modal.mode == Add ==> Api.Route(r) == Api.CreateProduct(form)
    ensures s.modal.mode == Edit ==>
      Api.Route(r) == Api.ReplaceProduct(Api.IdText(s.modal.currentProductId), form)
  {
    if s.modal.mode == Add then Api.AddRequest(form)
    else Api.UpdateRequest(Api.IdText(s.modal.currentProductId), form)
  }

  /** After a save: the modal is closed and the current page is reloaded. */
  function AfterSave(s: State, data: Option<PageResult>, renderFault: bool): (r: State)
    ensures r.modal == Modal(Add, None) && !r.modalOpen
    ensures r.filters == s.filters
  {
    AfterLoad(Closed(s), s.pagination.currentPage, data, renderFault)
  }

  /** After a confirmed delete the current page is reloaded. */
  function AfterDelete(s: State, confirmed: bool, data: Option<PageResult>, renderFault: bool): (r: State)
    ensures !confirmed ==> r == s
    ensures r.filters == s.filters && r.modal == s.modal && r.modalOpen == s.modalOpen
  {
    if confirmed then AfterLoad(s, s.pagination.currentPage, data, renderFault) else s
  }

  /** Saving and deleting never edit the row list locally: afterwards the
      rows are either untouched or exactly the page the server sent back,
      and the current page is kept. */
  lemma MutationsReloadFromServer(s: State, confirmed: bool, data: Option<PageResult>, renderFault: bool)
    ensures var r := AfterSave(s, data, renderFault);
      (r.rows == s.rows || (data.Some? && r.rows == data.value.products))
      && r.pagination.currentPage == s.pagination.currentPage
    ensures var r := AfterDelete(s, confirmed, data, renderFault);
      (r.rows == s.rows || (data.Some? && r.rows == data.value.products))
      && r.pagination.currentPage == s.pagination.currentPage
  {
  }

  /** Every handler keeps the invariant. */
  lemma HandlersKeepInv(s: State, value: string, id: int, product: Option<Product>,
                        confirmed: bool, data: Option<PageResult>, renderFault: bool)
    requires Inv(s)
    ensures Inv(AfterClear(s, data, renderFault))
    ensures Inv(AfterSave(s, data, renderFault))
    ensures Inv(AfterDelete(s, confirmed, data, renderFault))
    ensures Inv(AfterSearchInput(s, value, data, renderFault))
    ensures Inv(AfterCategoryChange(s, value, data, renderFault))
    ensures Inv(AfterSortChange(s, value, data, renderFault))
    ensures Inv(Opened(s, Add, None)) && Inv(Opened(s, Edit, product)) && Inv(Closed(s))
  {
    LoadKeepsInv(s.(filters := NoFilters), 1, data, renderFault);
    LoadKeepsInv(Closed(s), s.pagination.currentPage, data, renderFault);
    LoadKeepsInv(s, s.pagination.currentPage, data, renderFault);
  }

  // ---------------------------------------------------------------------
  // The controller, changing `appState` in place

  class Controller {
    var pagination: Pagination
    var modal: Modal
    var filters: Filters
    var panel: Panel
    var rows: seq<Product>
    var bar: Option<PaginationBar>
    var modalOpen: bool

    /** The fields, read together as a `State`. */
    function Snapshot(): State
      reads this
    {
      State(pagination, modal, filters, panel, rows, bar, modalOpen)
    }

    ghost predicate Valid()
      reads this
    {
      Inv(Snapshot())
    }

    constructor ()
      ensures Snapshot() == Initial() && Valid()
    {
      pagination := Pagination(1, PerPage, 0);
      modal := Modal(Add, None);
      filters := NoFilters;
      panel := Loading;
      rows := [];
      bar := None;
      modalOpen := false;
    }

    /** `loadProducts(page)` up to its `await`: shows Loading, sends the
        request. */
    method BeginLoad(page: int) returns (url: string)
      modifies this`panel
      ensures Snapshot() == old(Snapshot()).(panel := Loading)
      ensures url == LoadUrl(old(Snapshot()), page)
    {
      panel := Loading;
      var n := pagination.productsPerPage;
      url := Api.GetProductsUrl(Api.Num(n), Api.Num((page - 1) * n));
    }

    /** `loadProducts(page)` after its `await`. */
    method FinishLoad(page: int, data: Option<PageResult>, renderFault: bool)
      modifies this`pagination, this`panel, this`rows, this`bar
      ensures Snapshot() == AfterLoad(old(Snapshot()), page, data, renderFault)
    {
      if data.Some? && |data.value.products| > 0 {
        pagination := pagination.(currentPage := page);
        pagination := pagination.(totalProducts := data.value.total);
        panel := Table;
        rows := data.value.products;
        if renderFault {
          panel := Error;
        } else {
          bar := Some(CurrentPageBar(pagination));
        }
      } else {
        panel := Empty;
      }
    }

    method LoadProducts(page: int, data: Option<PageResult>, renderFault: bool) returns (url: string)
      modifies this`pagination, this`panel, this`rows, this`bar
      ensures url == LoadUrl(old(Snapshot()), page)
      ensures Snapshot() == AfterLoad(old(Snapshot()), page, data, renderFault)
      ensures old(Valid()) && page >= 1 ==> Valid()
    {
      ghost var before := Snapshot();
      url := BeginLoad(page);
      FinishLoad(page, data, renderFault);
      if Inv(before) && page >= 1 {
        LoadKeepsInv(before, page, data, renderFault);
      }
    }

    /** The "previous" button's handler. */
    method PrevClicked(data: Option<PageResult>, renderFault: bool) returns (url: Option<string>)
      requires Valid()
      modifies this`pagination, this`panel, this`rows, this`bar
      ensures Valid()
      ensures Snapshot() == AfterPrev(old(Snapshot()), data, renderFault)
      ensures url == if PrevPage(old(Snapshot())).Some? then Some(LoadUrl(old(Snapshot()), PrevPage(old(Snapshot())).value)) else None
    {
      if pagination.currentPage > 1 {
        var prev := pagination.currentPage - 1;
        ghost var before := Snapshot();
        assert PrevPage(before) == Some(prev) && prev >= 1;
        var u := LoadProducts(prev, data, renderFault);
        assert u == LoadUrl(before, prev);
        assert Snapshot() == AfterLoad(before, prev, data, renderFault);
        url := Some(u);
      } else {
        url := None;
      }
    }

    /** The "next" button's handler. */
    method NextClicked(data: Option<PageResult>, renderFault: bool) returns (url: Option<string>)
      requires Valid()
      modifies this`pagination, this`panel, this`rows, this`bar
      ensures Valid()
      ensures Snapshot() == AfterNext(old(Snapshot()), data, renderFault)
      ensures url == if NextPage(old(Snapshot())).Some? then Some(LoadUrl(old(Snapshot()), NextPage(old(Snapshot())).value)) else None
    {
      if pagination.currentPage * pagination.productsPerPage < pagination.totalProducts {
        var next := pagination.currentPage + 1;
        ghost var before := Snapshot();
        assert NextPage(before) == Some(next) && next >= 1;
        var u := LoadProducts(next, data, renderFault);
        assert u == LoadUrl(before, next);
        assert Snapshot() == AfterLoad(before, next, data, renderFault);
        url := Some(u);
      } else {
        url := None;
      }
    }

    /** The error panel's retry button, and the first load of the page:
        `loadProducts()` of page 1. */
    method RetryClicked(data: Option<PageResult>, renderFault: bool) returns (url: string)
      requires Valid()
      modifies this`pagination, this`panel, this`rows, this`bar
      ensures Valid()
      ensures Snapshot() == AfterLoad(old(Snapshot()), 1, data, renderFault)
      ensures url == LoadUrl(old(Snapshot()), 1)
    {
      url := LoadProducts(1, data, renderFault);
    }

    /** `applyFilters()` up to its `await`: shows Loading, picks the source. */
    method BeginFilters() returns (source: Source)
      modifies this`panel
      ensures Snapshot() == old(Snapshot()).(panel := Loading)
      ensures source == FilterSource(filters)
    {
      panel := Loading;
      if filters.searchQuery != "" {
        source := Search(filters.searchQuery);
      } else if filters.selectedCategory != "" {
        source := ByCategory(filters.selectedCategory);
      } else {
        var url := Api.GetProductsUrl(Api.Num(FilterFetchLimit), Api.Absent);
        source := AllProducts(url);
      }
    }

    /** `applyFilters()` after its `await`: narrows, sorts and shows. */
    method FinishFilters(data: Option<PageResult>, renderFault: bool)
      modifies this`panel, this`rows, this`bar
      ensures Snapshot() == AfterFilter(old(Snapshot()), data, renderFault)
    {
      var products := if data.Some? then data.value.products else [];
      if filters.searchQuery != "" && filters.selectedCategory != "" {
        products := NarrowToCategory(products, filters.selectedCategory);
      }
      if filters.sortBy != "" {
        products := SortProducts(products, filters.sortBy);
      }
      if |products| > 0 {
        panel := Table;
        rows := products;
        if renderFault {
          panel := Error;
        } else {
          bar := Some(FilteredBar(|products|));
        }
      } else {
        panel := Empty;
      }
    }

    method ApplyFilters(data: Option<PageResult>, renderFault: bool) returns (source: Source)
      modifies this`panel, this`rows, this`bar
      ensures source == FilterSource(filters)
      ensures Snapshot() == AfterFilter(old(Snapshot()), data, renderFault)
      ensures old(Valid()) ==> Valid()
    {
      ghost var before := Snapshot();
      source := BeginFilters();
      FinishFilters(data, renderFault);
      if Inv(before) {
        FilterKeepsInv(before, data, renderFault);
      }
    }

    /** The search box's (debounced) input handler. */
    method SearchInput(value: string, data: Option<PageResult>, renderFault: bool) returns (source: Source)
      requires Valid()
      modifies this`filters, this`panel, this`rows, this`bar
      ensures Valid()
      ensures Snapshot() == AfterSearchInput(old(Snapshot()), value, data, renderFault)
      ensures source == FilterSource(filters)
    {
      var query := Text.Trim(value);
      ghost var before := Snapshot();
      filters := filters.(searchQuery := query);
      assert Snapshot() == before.(filters := before.filters.(searchQuery := query));
      assert Valid();
      source := ApplyFilters(data, renderFault);
    }

    /** The category selector's change handler. */
    method CategoryChanged(value: string, data: Option<PageResult>, renderFault: bool) returns (source: Source)
      requires Valid()
      modifies this`filters, this`panel, this`rows, this`bar
      ensures Valid()
      ensures Snapshot() == AfterCategoryChange(old(Snapshot()), value, data, renderFault)
      ensures source == FilterSource(filters)
    {
      filters := filters.(selectedCategory := value);
      source := ApplyFilters(data, renderFault);
    }

    /** The sort selector's change handler. */
    method SortChanged(value: string, data: Option<PageResult>, renderFault: bool) returns (source: Source)
      requires Valid()
      modifies this`filters, this`panel, this`rows, this`bar
      ensures Valid()
      ensures Snapshot() == AfterSortChange(old(Snapshot()), value, data, renderFault)
      ensures source == FilterSource(filters)
    {
      filters := filters.(sortBy := value);
      source := ApplyFilters(data, renderFault);
    }

    /** `clearAllFilters()`. */
    method ClearAllFilters(data: Option<PageResult>, renderFault: bool) returns (url: string)
      requires Valid()
      modifies this`filters, this`pagination, this`panel, this`rows, this`bar
      ensures Valid()
      ensures Snapshot() == AfterClear(old(Snapshot()), data, renderFault)
      ensures url == LoadUrl(old(Snapshot()), 1)
    {
      filters := filters.(searchQuery := "");
      filters := filters.(selectedCategory := "");
      filters := filters.(sortBy := "");
      url := LoadProducts(1, data, renderFault);
    }

    method OpenModal(mode: ModalMode, product: Option<Product>)
      modifies this`modal, this`modalOpen
      ensures Snapshot() == Opened(old(Snapshot()), mode, product)
    {
      modal := modal.(mode := mode);
      modal := modal.(currentProductId := if product.Some? && product.value.id != 0 then Some(product.value.id) else None);
      modalOpen := true;
    }

    method CloseModal()
      modifies this`modal, this`modalOpen
      ensures Snapshot() == Closed(old(Snapshot()))
    {
      modalOpen := false;
      modal := modal.(mode := Add);
      modal := modal.(currentProductId := None);
    }

    /** The "add product" buttons. */
    method AddClicked()
      requires Valid()
      modifies this`modal, this`modalOpen
      ensures Valid()
      ensures Snapshot() == Opened(old(Snapshot()), Add, None)
    {
      OpenModal(Add, None);
    }

    /** A row's edit button: fetch the product by the row's id, then open
        the modal in edit mode with whatever came back. */
    method EditClicked(rowId: int, reply: Option<Product>) returns (request: Api.Request)
      requires Valid()
      modifies this`modal, this`modalOpen
      ensures Valid()
      ensures request == Api.GetByIdRequest(Api.IdText(Some(rowId)))
      ensures Snapshot() == Opened(old(Snapshot()), Edit, reply)
    {
      request := Api.GetByIdRequest(Api.IdText(Some(rowId)));
      OpenModal(Edit, reply);
    }

    /** A row's delete button: when confirmed, delete by the row's id and
        reload the current page, whatever the delete returned. */
    method DeleteClicked(rowId: int, confirmed: bool, data: Option<PageResult>, renderFault: bool)
      returns (request: Option<Api.Request>, url: Option<string>)
      requires Valid()
      modifies this`pagination, this`panel, this`rows, this`bar
      ensures Valid()
      ensures Snapshot() == AfterDelete(old(Snapshot()), confirmed, data, renderFault)
      ensures request == if confirmed then Some(Api.DeleteRequest(Api.IdText(Some(rowId)))) else None
      ensures url == if confirmed then Some(LoadUrl(old(Snapshot()), old(pagination.currentPage))) else None
    {
      if confirmed {
        request := Some(Api.DeleteRequest(Api.IdText(Some(rowId))));
        var u := LoadProducts(pagination.currentPage, data, renderFault);
        url := Some(u);
      } else {
        request, url := None, None;
      }
    }

    /** `handleFormSubmit`: add or update, close the modal, reload the
        current page. */
    method SaveClicked(form: Api.FormData, data: Option<PageResult>, renderFault: bool)
      returns (request: Api.Request, url: string)
      requires Valid()
      modifies this`modal, this`modalOpen, this`pagination, this`panel, this`rows, this`bar
      ensures Valid()
      ensures request == SaveRequest(old(Snapshot()), form)
      ensures Snapshot() == AfterSave(old(Snapshot()), data, renderFault)
      ensures url == LoadUrl(old(Snapshot()), old(pagination.currentPage))
    {
      if modal.mode == Add {
        request := Api.AddRequest(form);
      } else {
        request := Api.UpdateRequest(Api.IdText(modal.currentProductId), form);
      }
      CloseModal();
      url := LoadProducts(pagination.currentPage, data, renderFault);
    }
  }
}
