/** The pure pieces of the listing page: the stock badge of a row, the
    pagination bar, and the client-side narrowing and sorting that
    `applyFilters` applies to a fetched list. */
module View {
  import opened Wrappers
  import opened Catalog
  import opened Sorting

  /** The three badge colours of the stock column. */
  datatype StockTier = Healthy | Low | OutOfStock

  /** The tier `createProductRow` picks for a stock count: green above 50,
      yellow from 1 to 50, red otherwise. */
  function StockTierOf(stock: int): (t: StockTier)
    ensures t == Healthy <==> stock > 50
    ensures t == Low <==> 0 < stock <= 50
    ensures t == OutOfStock <==> stock <= 0
  {
    if stock > 50 then Healthy else if stock > 0 then Low else OutOfStock
  }

  /** The CSS classes of each tier's badge. */
  function TierClass(t: StockTier): string {
    match t
    case Healthy => "bg-green-100 text-green-800"
    case Low => "bg-yellow-100 text-yellow-800"
    case OutOfStock => "bg-red-100 text-red-800"
  }

  /** The badge class `createProductRow` picks with its if-chain: always the
      class of the stock count's tier. */
  function BadgeClass(stock: int): (c: string)
    ensures c == TierClass(StockTierOf(stock))
  {
    if stock > 50 then "bg-green-100 text-green-800"
    else if stock > 0 then "bg-yellow-100 text-yellow-800"
    else "bg-red-100 text-red-800"
  }

  function TierRank(t: StockTier): nat {
    match t
    case OutOfStock => 0
    case Low => 1
    case Healthy => 2
  }

  /** More stock never gives a worse badge. */
  lemma StockTierMonotone(a: int, b: int)
    requires a <= b
    ensures TierRank(StockTierOf(a)) <= TierRank(StockTierOf(b))
  {
  }

  /** The boundary cases of the badge: 0, 50 and 51. */
  lemma StockTierBoundaries()
    ensures StockTierOf(0) == OutOfStock && BadgeClass(0) == "bg-red-100 text-red-800"
    ensures StockTierOf(50) == Low && BadgeClass(50) == "bg-yellow-100 text-yellow-800"
    ensures StockTierOf(51) == Healthy && BadgeClass(51) == "bg-green-100 text-green-800"
  {
  }

  /** What the pagination bar shows: "Showing start to end of total", and
      whether each button is disabled. */
  datatype PaginationBar = PaginationBar(start: int, end: int, total: int, prevDisabled: bool, nextDisabled: bool)

  /** The number of products before page `page`: the `skip` of its request. */
  function Offset(page: int, perPage: int): int {
    (page - 1) * perPage
  }

  /** `updatePagination`: the bar for page `page` of `total` products. The
      end is `page * perPage` even when that exceeds `total`. */
  function PageBar(page: int, perPage: int, total: int): (b: PaginationBar)
    ensures b.start == Offset(page, perPage) + 1
    ensures b.end == Offset(page + 1, perPage)
    ensures b.end - b.start + 1 == perPage
    ensures b.total == total
    ensures b.prevDisabled <==> page == 1
    ensures b.nextDisabled <==> Offset(page + 1, perPage) >= total
  {
    PaginationBar((page - 1) * perPage + 1, page * perPage, total, page == 1, page * perPage >= total)
  }

  /** `updateFilteredPagination`: every result on one page, both buttons off. */
  function FilteredBar(count: int): (b: PaginationBar)
    ensures b.start == 1 && b.end == count && b.total == count
    ensures b.prevDisabled && b.nextDisabled
  {
    PaginationBar(1, count, count, true, true)
  }

  /** The filtered bar is the bar of a single page holding all the results. */
  lemma FilteredBarIsSinglePage(count: int)
    ensures FilteredBar(count) == PageBar(1, count, count)
  {
  }

  /** Consecutive pages cover consecutive, non-overlapping ranges. */
  lemma PagesTile(page: int, perPage: int, total: int)
    ensures PageBar(page + 1, perPage, total).start == PageBar(page, perPage, total).end + 1
  {
  }

  /** With 10 per page and 5 products, page 1 shows "1 to 10 of 5" with
      both buttons disabled: the end is not clamped to the total. */
  lemma UnclampedEndExample()
    ensures PageBar(1, 10, 5) == PaginationBar(1, 10, 5, true, true)
    ensures PageBar(1, 10, 5).end > PageBar(1, 10, 5).total
  {
  }

  /** `a` is `b` with some elements left out, order kept. */
  predicate IsSubsequence(a: seq<Product>, b: seq<Product>) {
    if a == [] then true
    else if b == [] then false
    else if a[0] == b[0] then IsSubsequence(a[1..], b[1..])
    else IsSubsequence(a, b[1..])
  }

  /** `products.filter(p => p.category === category)`: exactly the products of
      that category, each as often as before, in their original order. */
  function NarrowToCategory(products: seq<Product>, category: string): (r: seq<Product>)
    ensures IsSubsequence(r, products)
    ensures forall i :: 0 <= i < |r| ==> r[i].category == category
    ensures forall p :: multiset(r)[p] == if p.category == category then multiset(products)[p] else 0
  {
    if products == [] then []
    else
      var rest := NarrowToCategory(products[1..], category);
      assert products == [products[0]] + products[1..];
      if products[0].category == category then [products[0]] + rest else rest
  }

  /** The list `applyFilters` shows for the fetched `source`: narrowed to the
      selected category when a search and a category are both set, then
      sorted when a sort key is set. */
  function FilteredProducts(source: seq<Product>, search: string, category: string, sortBy: string): (r: seq<Product>)
    ensures forall p :: (multiset(r)[p]
                        == if search != "" && category != "" && p.category != category then 0 else multiset(source)[p])
    ensures search != "" && category != "" ==> forall i :: 0 <= i < |r| ==> r[i].category == category
    ensures ParseSortKey(sortBy) != None ==> SortedBy(ParseSortKey(sortBy).value, r)
    ensures ParseSortKey(sortBy) == None ==>
      r == if search != "" && category != "" then NarrowToCategory(source, category) else source
  {
    var narrowed := if search != "" && category != "" then NarrowToCategory(source, category) else source;
    assert ParseSortKey("") == None;
    if sortBy != "" then SortProducts(narrowed, sortBy) else narrowed
  }

  /** Without a recognised sort key, the shown list is a subsequence of the
      fetched one. */
  lemma UnsortedIsSubsequence(source: seq<Product>, search: string, category: string, sortBy: string)
    requires ParseSortKey(sortBy) == None
    ensures IsSubsequence(FilteredProducts(source, search, category, sortBy), source)
  {
    if !(search != "" && category != "") {
      SubsequenceOfItself(source);
    }
  }

  lemma {:induction false} SubsequenceOfItself(s: seq<Product>)
    ensures IsSubsequence(s, s)
  {
    if s != [] { SubsequenceOfItself(s[1..]); }
  }
}
