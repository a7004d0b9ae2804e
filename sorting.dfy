/** `sortProducts`: a copy of the product list ordered by the key chosen in
    the sort selector, with `Array.prototype.sort`'s stable ordering and the
    comparators the dashboard passes to it. */
module Sorting {
  import opened Wrappers
  import opened Text
  import opened Catalog

  datatype Field = Title | Price | Rating | Stock

  datatype Direction = Ascending | Descending

  datatype SortKey = SortKey(field: Field, direction: Direction)

  /** The selector value naming `k`, such as "price-desc". */
  function KeyName(k: SortKey): string {
    var field := match k.field
      case Title => "title"
      case Price => "price"
      case Rating => "rating"
      case Stock => "stock";
    field + (if k.direction == Ascending then "-asc" else "-desc")
  }

  /** The sort keys `sortProducts` recognises; any other value selects the
      `default` branch. */
  function ParseSortKey(s: string): (k: Option<SortKey>)
    ensures k.Some? ==> KeyName(k.value) == s
  {
    if s == "title-asc" then Some(SortKey(Title, Ascending))
    else if s == "title-desc" then Some(SortKey(Title, Descending))
    else if s == "price-asc" then Some(SortKey(Price, Ascending))
    else if s == "price-desc" then Some(SortKey(Price, Descending))
    else if s == "rating-asc" then Some(SortKey(Rating, Ascending))
    else if s == "rating-desc" then Some(SortKey(Rating, Descending))
    else if s == "stock-asc" then Some(SortKey(Stock, Ascending))
    else if s == "stock-desc" then Some(SortKey(Stock, Descending))
    else None
  }

  function Sign(x: real): int {
    if x < 0.0 then -1 else if x > 0.0 then 1 else 0
  }

  /** The ascending comparator for `field`: `localeCompare` on titles (here
      code-point order), the difference of the numbers otherwise. Only its
      sign matters to the sort. */
  function FieldCompare(field: Field, a: Product, b: Product): int {
    match field
    case Title => LexCompare(a.title, b.title)
    case Price => Sign(a.price - b.price)
    case Rating => Sign(a.rating - b.rating)
    case Stock => Sign((a.stock - b.stock) as real)
  }

  /** The comparator passed to `sort` for key `k`: the `-desc` keys swap the
      operands. Its sign is all the sort looks at: at most 0 means `a` may
      stay ahead of `b`, that is, the field is in the order the key asks for. */
  function Compare(k: SortKey, a: Product, b: Product): (r: int)
    ensures -1 <= r <= 1
    ensures r <= 0 <==> InOrder(k, a, b)
  {
    if k.direction == Ascending then FieldCompare(k.field, a, b) else FieldCompare(k.field, b, a)
  }

  /** `a` may precede `b` in the order `k` asks for, said in terms of the
      field: non-decreasing for `-asc` keys, non-increasing for `-desc`. */
  predicate InOrder(k: SortKey, a: Product, b: Product) {
    var (x, y) := if k.direction == Ascending then (a, b) else (b, a);
    match k.field
    case Title => LexCompare(x.title, y.title) <= 0
    case Price => x.price <= y.price
    case Rating => x.rating <= y.rating
    case Stock => x.stock <= y.stock
  }

  predicate SortedBy(k: SortKey, s: seq<Product>) {
    forall i, j :: 0 <= i < j < |s| ==> InOrder(k, s[i], s[j])
  }

  lemma CompareFlip(k: SortKey, a: Product, b: Product)
    ensures Compare(k, a, b) == -Compare(k, b, a)
  {
    if k.field == Title { LexCompareFlip(a.title, b.title); }
  }

  lemma CompareTransitive(k: SortKey, a: Product, b: Product, c: Product)
    requires Compare(k, a, b) <= 0 && Compare(k, b, c) <= 0
    ensures Compare(k, a, c) <= 0
  {
    if k.field == Title {
      if k.direction == Ascending {
        LexCompareTransitive(a.title, b.title, c.title);
      } else {
        LexCompareTransitive(c.title, b.title, a.title);
      }
    }
  }

  /** Products the comparator cannot tell apart from one another. */
  lemma TiedWithSame(k: SortKey, a: Product, b: Product, v: Product)
    requires Compare(k, a, v) == 0 && Compare(k, b, v) == 0
    ensures Compare(k, a, b) == 0
  {
    CompareFlip(k, b, v);
    CompareFlip(k, a, v);
    CompareTransitive(k, a, v, b);
    CompareTransitive(k, b, v, a);
    CompareFlip(k, a, b);
  }

  /** Places `x` before the first element it need not follow; nothing is
      lost or duplicated. */
  function Insert(k: SortKey, x: Product, s: seq<Product>): (r: seq<Product>)
    ensures multiset(r) == multiset(s) + multiset{x}
  {
    if s == [] || Compare(k, x, s[0]) <= 0 then [x] + s
    else
      assert s == [s[0]] + s[1..];
      [s[0]] + Insert(k, x, s[1..])
  }

  /** A stable sort by comparator `Compare(k, _, _)`: a rearrangement of
      `s`. */
  function Sort(k: SortKey, s: seq<Product>): (r: seq<Product>)
    ensures multiset(r) == multiset(s)
  {
    if s == [] then []
    else
      assert s == [s[0]] + s[1..];
      Insert(k, s[0], Sort(k, s[1..]))
  }

  lemma {:induction false} InsertKeepsSorted(k: SortKey, x: Product, s: seq<Product>)
    requires SortedBy(k, s)
    ensures SortedBy(k, Insert(k, x, s))
    ensures Insert(k, x, s) != [] && (Insert(k, x, s)[0] == x || (s != [] && Insert(k, x, s)[0] == s[0]))
  {
    var r := Insert(k, x, s);
    if s == [] {
    } else if Compare(k, x, s[0]) <= 0 {
      forall j | 0 < j < |r| ensures InOrder(k, x, r[j]) {
        if j > 1 {
          CompareTransitive(k, x, s[0], s[j - 1]);
        }
      }
    } else {
      InsertKeepsSorted(k, x, s[1..]);
      var t := Insert(k, x, s[1..]);
      CompareFlip(k, x, s[0]);
      assert InOrder(k, s[0], t[0]);
      forall j | 0 < j < |r| ensures InOrder(k, s[0], r[j]) {
        if j > 1 {
          assert r[j] in multiset(t);
          assert r[j] == x || r[j] in s[1..];
          if r[j] != x {
            var m :| 0 <= m < |s[1..]| && s[1..][m] == r[j];
            assert InOrder(k, s[0], s[m + 1]);
          }
        }
      }
    }
  }

  lemma {:induction false} SortSorts(k: SortKey, s: seq<Product>)
    ensures SortedBy(k, Sort(k, s))
  {
    if s != [] {
      SortSorts(k, s[1..]);
      InsertKeepsSorted(k, s[0], Sort(k, s[1..]));
    }
  }

  /** The products of `s`, in order, that tie with `v` under key `k`. */
  function TiedWith(k: SortKey, s: seq<Product>, v: Product): (r: seq<Product>)
    ensures |r| <= |s|
  {
    if s == [] then []
    else (if Compare(k, s[0], v) == 0 then [s[0]] else []) + TiedWith(k, s[1..], v)
  }

  lemma {:induction false} InsertKeepsTies(k: SortKey, x: Product, s: seq<Product>, v: Product)
    ensures TiedWith(k, Insert(k, x, s), v)
         == (if Compare(k, x, v) == 0 then [x] else []) + TiedWith(k, s, v)
  {
    var r := Insert(k, x, s);
    if s != [] && Compare(k, x, s[0]) > 0 {
      var t := Insert(k, x, s[1..]);
      InsertKeepsTies(k, x, s[1..], v);
      assert r == [s[0]] + t;
      assert r[1..] == t;
      var head := if Compare(k, s[0], v) == 0 then [s[0]] else [];
      assert TiedWith(k, r, v) == head + TiedWith(k, t, v);
      assert TiedWith(k, s, v) == head + TiedWith(k, s[1..], v);
      if Compare(k, x, v) == 0 && Compare(k, s[0], v) == 0 {
        TiedWithSame(k, x, s[0], v);
      }
    } else {
      assert r == [x] + s;
      assert r[1..] == s;
      assert TiedWith(k, r, v) == (if Compare(k, x, v) == 0 then [x] else []) + TiedWith(k, s, v);
    }
  }

  /** The sort is stable: products the key cannot tell apart keep their
      relative order. */
  lemma {:induction false} SortIsStable(k: SortKey, s: seq<Product>, v: Product)
    ensures TiedWith(k, Sort(k, s), v) == TiedWith(k, s, v)
  {
    if s != [] {
      SortIsStable(k, s[1..], v);
      InsertKeepsTies(k, s[0], Sort(k, s[1..]), v);
    }
  }

  /** `sortProducts(products, sortBy)`: a reordered copy for a recognised
      key, the copy unchanged otherwise. */
  function SortProducts(products: seq<Product>, sortBy: string): (r: seq<Product>)
    ensures multiset(r) == multiset(products)
    ensures ParseSortKey(sortBy) == None ==> r == products
    ensures ParseSortKey(sortBy) != None ==> SortedBy(ParseSortKey(sortBy).value, r)
  {
    match ParseSortKey(sortBy)
    case None => products
    case Some(k) =>
      SortSorts(k, products);
      Sort(k, products)
  }

  /** Every selector value names the key it is parsed as. */
  lemma ParseKeyName(k: SortKey)
    ensures ParseSortKey(KeyName(k)) == Some(k)
  {
    var name := KeyName(k);
    assert name[0] == (match k.field case Title => 't' case Price => 'p' case Rating => 'r' case Stock => 's');
    assert |name| == |KeyName(SortKey(k.field, Ascending))| + (if k.direction == Ascending then 0 else 1);
    if k.field == Stock {
      assert name[1] == 't';
    }
  }

  /** Sorting by "price-desc" puts prices 10, 30, 20 in the order 30, 20, 10. */
  lemma SortOfThree(k: SortKey, a: Product, b: Product, c: Product)
    ensures Sort(k, [a, b, c]) == Insert(k, a, Insert(k, b, [c]))
  {
    assert [a, b, c][1..] == [b, c];
    assert [b, c][1..] == [c];
    assert Sort(k, [c]) == [c];
  }

  lemma InsertAhead(k: SortKey, x: Product, y: Product)
    requires Compare(k, x, y) <= 0
    ensures Insert(k, x, [y]) == [x, y]
  {
  }

  lemma InsertBehind(k: SortKey, x: Product, y: Product, z: Product)
    requires Compare(k, x, y) > 0 && Compare(k, x, z) > 0
    ensures Insert(k, x, [y, z]) == [y, z, x]
  {
    assert [y, z][1..] == [z] && [z][1..] == [];
    assert Insert(k, x, [z]) == [z, x];
  }

  lemma PriceDescOrder(a: Product, b: Product, c: Product)
    requires a.price == 10.0 && b.price == 30.0 && c.price == 20.0
    ensures Sort(SortKey(Price, Descending), [a, b, c]) == [b, c, a]
  {
    var k := SortKey(Price, Descending);
    SortOfThree(k, a, b, c);
    InsertAhead(k, b, c);
    InsertBehind(k, a, b, c);
  }

  /** Sorting by "price-desc" puts prices 10, 30, 20 in the order 30, 20, 10. */
  lemma PriceDescExample(a: Product, b: Product, c: Product)
    requires a.price == 10.0 && b.price == 30.0 && c.price == 20.0
    ensures SortProducts([a, b, c], "price-desc") == [b, c, a]
  {
    PriceDescOrder(a, b, c);
    assert ParseSortKey("price-desc") == Some(SortKey(Price, Descending));
  }
}
