/** The HTTP client: the URL, method, headers and body of each request the
    dashboard sends to the product service, and how a failed request is
    turned into "no data". */
module Api {
  import opened Wrappers
  import opened Text

  const ProductsBase: string := "https://dummyjson.com/products"

  /** What a caller passes for `limit` or `skip`: nothing (the default
      applies), a number, or a value whose `typeof` is not "number". */
  datatype Arg = Absent | Num(n: int) | NotNumber

  /** One query parameter, name and value. */
  type Param = (string, string)

  /** The destructuring defaults `{ limit = 10, skip = 0 }`. */
  function WithDefault(a: Arg, default: int): (r: Arg)
    ensures r != Absent
    ensures a == Absent ==> r == Num(default)
    ensures a != Absent ==> r == a
  {
    if a.Absent? then Num(default) else a
  }

  function Pair(p: Param): string {
    p.0 + "=" + p.1
  }

  /** `URLSearchParams.prototype.toString`: `name=value` pairs joined by `&`.
      Only parameters whose characters need no percent-encoding are ever
      built, so encoding is the identity here. */
  function Serialize(params: seq<Param>): (query: string)
    ensures query == "" <==> params == []
  {
    if params == [] then ""
    else if |params| == 1 then Pair(params[0])
    else Pair(params[0]) + "&" + Serialize(params[1..])
  }

  /** The parameters `getProducts` appends, in the order it appends them. */
  function ListParams(limit: Arg, skip: Arg): (ps: seq<Param>)
    ensures |ps| <= 2
    ensures |ps| == 2 ==> ps[0].0 == "limit" && ps[1].0 == "skip"
  {
    var l := WithDefault(limit, 10);
    var s := WithDefault(skip, 0);
    (if l.Num? then [("limit", IntToString(l.n))] else [])
      + (if s.Num? && s.n > 0 then [("skip", IntToString(s.n))] else [])
  }

  /** The products URL carrying `params`: a `?` only when the query string
      is not empty. */
  function UrlWith(params: seq<Param>): (url: string)
    ensures url == ProductsBase <==> params == []
  {
    var query := Serialize(params);
    if query != "" then ProductsBase + "?" + query else ProductsBase
  }

  /** The URL `getProducts({ limit, skip })` fetches: the service reads back
      from it exactly the parameters that were appended. */
  function ListUrl(limit: Arg, skip: Arg): (url: string)
    ensures QueryOf(url) == Some(ListParams(limit, skip))
  {
    ListParamsSafe(limit, skip);
    UrlWithRoundTrip(ListParams(limit, skip));
    UrlWith(ListParams(limit, skip))
  }

  /** `getProducts` up to the `fetch`: appends `limit` when it is a number and
      `skip` when it is a number above zero, then builds the URL. */
  method GetProductsUrl(limit: Arg, skip: Arg) returns (url: string)
    ensures url == ListUrl(limit, skip)
  {
    var lim := WithDefault(limit, 10);
    var sk := WithDefault(skip, 0);
    var params: seq<Param> := [];
    if lim.Num? {
      params := params + [("limit", IntToString(lim.n))];
    }
    if sk.Num? && sk.n > 0 {
      params := params + [("skip", IntToString(sk.n))];
    }
    var query := Serialize(params);
    url := if query != "" then ProductsBase + "?" + query else ProductsBase;
  }

  // ---------------------------------------------------------------------
  // Reading a products URL back, as the service does

  /** A `name=value` piece split at its first `=`. */
  function ParsePair(s: string): Param {
    var kv := Split(s, '=');
    (kv[0], Join(kv[1..], '='))
  }

  function ParsePairs(pieces: seq<string>): seq<Param> {
    if pieces == [] then [] else [ParsePair(pieces[0])] + ParsePairs(pieces[1..])
  }

  function ParseQuery(query: string): seq<Param> {
    if query == "" then [] else ParsePairs(Split(query, '&'))
  }

  /** The query parameters of a products-listing URL; None when `url` is
      not one. */
  function QueryOf(url: string): Option<seq<Param>> {
    if url == ProductsBase then Some([])
    else if |url| > |ProductsBase| && url[..|ProductsBase| + 1] == ProductsBase + "?" then
      Some(ParseQuery(url[|ProductsBase| + 1..]))
    else None
  }

  /** The first value given for `name`, as `URLSearchParams.get`. */
  function Lookup(params: seq<Param>, name: string): Option<string> {
    if params == [] then None
    else if params[0].0 == name then Some(params[0].1)
    else Lookup(params[1..], name)
  }

  /** The integer the service reads for parameter `name` of `url`. */
  function IntParam(url: string, name: string): Option<int> {
    match QueryOf(url)
    case None => None
    case Some(params) =>
      match Lookup(params, name)
      case None => None
      case Some(v) => ParseInt(v)
  }

  predicate SafeParam(p: Param) {
    '&' !in p.0 && '&' !in p.1 && '=' !in p.0
  }

  lemma ParsePairOfPair(p: Param)
    requires '=' !in p.0
    ensures ParsePair(Pair(p)) == p
  {
    assert Pair(p) == p.0 + ['='] + p.1;
    SplitAtSep(p.0, '=', p.1);
    JoinSplit(p.1, '=');
  }

  lemma {:induction false} ParseSerialized(params: seq<Param>)
    requires params != []
    requires forall i :: 0 <= i < |params| ==> SafeParam(params[i])
    ensures ParsePairs(Split(Serialize(params), '&')) == params
  {
    var p := params[0];
    ParsePairOfPair(p);
    assert '&' !in Pair(p);
    if |params| == 1 {
      SplitWithoutSep(Pair(p), '&');
    } else {
      ParseSerialized(params[1..]);
      assert Serialize(params) == Pair(p) + ['&'] + Serialize(params[1..]);
      SplitAtSep(Pair(p), '&', Serialize(params[1..]));
    }
  }

  /** Reading back the URL built from `params` gives `params`. */
  lemma UrlWithRoundTrip(params: seq<Param>)
    requires forall i :: 0 <= i < |params| ==> SafeParam(params[i])
    ensures QueryOf(UrlWith(params)) == Some(params)
  {
    if params != [] {
      var query := Serialize(params);
      assert query != "" by {
        if |params| == 1 { assert Pair(params[0])[|params[0].0|] == '='; }
        else { assert query == Pair(params[0]) + "&" + Serialize(params[1..]); }
      }
      var url := ProductsBase + "?" + query;
      assert url[..|ProductsBase| + 1] == ProductsBase + "?";
      assert url[|ProductsBase| + 1..] == query;
      ParseSerialized(params);
    }
  }

  lemma NumeralIsSafe(n: int)
    ensures '&' !in IntToString(n) && '=' !in IntToString(n)
  {
  }

  lemma ListParamsSafe(limit: Arg, skip: Arg)
    ensures forall i :: 0 <= i < |ListParams(limit, skip)| ==> SafeParam(ListParams(limit, skip)[i])
  {
    var l := WithDefault(limit, 10);
    var s := WithDefault(skip, 0);
    if l.Num? { NumeralIsSafe(l.n); }
    if s.Num? { NumeralIsSafe(s.n); }
  }

  /** The service reads back from `getProducts`'s URL exactly the `limit`
      that was a number (10 when none was passed) and the `skip` that was a
      number above zero; any other `skip` never reaches the URL. */
  lemma ListUrlCarries(limit: Arg, skip: Arg)
    ensures var l := WithDefault(limit, 10);
      IntParam(ListUrl(limit, skip), "limit") == if l.Num? then Some(l.n) else None
    ensures var s := WithDefault(skip, 0);
      IntParam(ListUrl(limit, skip), "skip") == if s.Num? && s.n > 0 then Some(s.n) else None
  {
    var l := WithDefault(limit, 10);
    var s := WithDefault(skip, 0);
    var params := ListParams(limit, skip);
    if l.Num? { IntToStringRoundTrip(l.n); }
    if s.Num? { IntToStringRoundTrip(s.n); }
    if l.Num? {
      assert params[0] == ("limit", IntToString(l.n));
      assert Lookup(params, "limit") == Some(IntToString(l.n));
      if s.Num? && s.n > 0 {
        assert params[1..] == [("skip", IntToString(s.n))];
        assert Lookup(params, "skip") == Some(IntToString(s.n));
      } else {
        assert params[1..] == [];
      }
    } else if s.Num? && s.n > 0 {
      assert params == [("skip", IntToString(s.n))];
      assert "skip"[0] != "limit"[0];
      assert Lookup(params, "limit") == Lookup([], "limit");
    } else {
      assert params == [];
    }
  }

  /** The bare products URL is fetched exactly when nothing was appended:
      `limit` is not a number and `skip` is not a number above zero. */
  lemma ListUrlBare(limit: Arg, skip: Arg)
    ensures var l, s := WithDefault(limit, 10), WithDefault(skip, 0);
      ListUrl(limit, skip) == ProductsBase <==> !l.Num? && !(s.Num? && s.n > 0)
  {
  }

  /** With the default arguments the URL ends in `?limit=10` and carries no
      `skip`. */
  lemma DefaultListUrl()
    ensures ListUrl(Absent, Absent) == ProductsBase + "?limit=10"
  {
    assert NatToString(10) == NatToString(1) + [DigitChar(0)] == "10";
    var params := ListParams(Absent, Absent);
    assert params == [("limit", "10")];
    assert Serialize(params) == "limit=10";
    assert "?" + "limit=10" == "?limit=10";
    assert UrlWith(params) == ProductsBase + "?limit=10";
  }

  /** A `limit` of 100 with no `skip` ends in `?limit=100`. */
  lemma LimitOnlyUrl()
    ensures ListUrl(Num(100), Absent) == ProductsBase + "?limit=100"
  {
    assert NatToString(10) == NatToString(1) + [DigitChar(0)] == "10";
    assert NatToString(100) == NatToString(10) + [DigitChar(0)] == "100";
    var params := ListParams(Num(100), Absent);
    assert params == [("limit", "100")];
    assert Serialize(params) == "limit=100";
    assert "?" + "limit=100" == "?limit=100";
    assert UrlWith(params) == ProductsBase + "?limit=100";
  }

  // ---------------------------------------------------------------------
  // The single-product requests

  datatype Method = GET | DELETE | POST | PUT

  /** The editable fields of the product form, by name. */
  type FormData = map<string, string>

  type Header = (string, string)

  const JsonContentType: Header := ("Content-Type", "application/json")

  /** One HTTP request: `fetch`'s URL and options. */
  datatype Request = Request(verb: Method, url: string, headers: seq<Header>, body: Option<FormData>)

  /** `${id}` of a product id: its decimal numeral, which reads back as the
      id, or "null" for a missing id. */
  function IdText(id: Option<int>): (s: string)
    ensures IsIdText(s)
    ensures id == None ==> s == "null"
    ensures id.Some? ==> ParseInt(s) == Some(id.value)
  {
    match id
    case None => "null"
    case Some(n) =>
      IntToStringRoundTrip(n);
      IntToString(n)
  }

  /** A path segment that names one product. */
  predicate IsIdText(s: string) {
    s != "" && '/' !in s && '?' !in s
  }

  function ProductUrl(id: string): string {
    ProductsBase + "/" + id
  }

  /** `getProducts({ limit, skip })`: a plain GET of the listing URL, which
      the service reads as a listing with exactly the appended parameters. */
  function ListRequest(limit: Arg, skip: Arg): (r: Request)
    ensures Route(r) == ListProducts(ListParams(limit, skip))
  {
    Request(GET, ListUrl(limit, skip), [], None)
  }

  /** `getProductById(id)`: a plain GET, read as fetching product `id`. */
  function GetByIdRequest(id: string): (r: Request)
    ensures IsIdText(id) ==> Route(r) == ReadProduct(id)
  {
    ProductUrlParts(id);
    Request(GET, ProductUrl(id), [], None)
  }

  /** `deleteProductById(id)`: a DELETE, read as removing product `id`. */
  function DeleteRequest(id: string): (r: Request)
    ensures IsIdText(id) ==> Route(r) == RemoveProduct(id)
  {
    ProductUrlParts(id);
    Request(DELETE, ProductUrl(id), [], None)
  }

  /** `addProduct(formData)`: the form as a JSON body, read as creating a
      product from exactly that form. */
  function AddRequest(form: FormData): (r: Request)
    ensures Route(r) == CreateProduct(form)
  {
    ProductUrlParts("add");
    assert ProductsBase + "/add" == ProductUrl("add");
    Request(POST, ProductsBase + "/add", [JsonContentType], Some(form))
  }

  /** `updateProduct(id, formData)`: a JSON PUT, read as replacing product
      `id` by exactly the form. */
  function UpdateRequest(id: string, form: FormData): (r: Request)
    ensures IsIdText(id) ==> Route(r) == ReplaceProduct(id, form)
  {
    ProductUrlParts(id);
    Request(PUT, ProductUrl(id), [JsonContentType], Some(form))
  }

  /** The operations the product service offers. */
  datatype Endpoint =
    | ListProducts(query: seq<Param>)
    | ReadProduct(id: string)
    | RemoveProduct(id: string)
    | CreateProduct(fields: FormData)
    | ReplaceProduct(id: string, fields: FormData)
    | Unrouted

  /** Which operation of the service a request invokes: its path, method
      and body read as the service's HTTP interface describes them. */
  function Route(r: Request): Endpoint {
    var query := QueryOf(r.url);
    var prefix := ProductsBase + "/";
    if query.Some? then
      if r.verb == GET && r.body == None then ListProducts(query.value) else Unrouted
    else if |r.url| > |prefix| && r.url[..|prefix|] == prefix then
      var tail := r.url[|prefix|..];
      var json := r.body.Some? && JsonContentType in r.headers;
      if '/' in tail || '?' in tail then Unrouted
      else
        match r.verb
        case GET => if r.body == None then ReadProduct(tail) else Unrouted
        case DELETE => if r.body == None then RemoveProduct(tail) else Unrouted
        case POST => if tail == "add" && json then CreateProduct(r.body.value) else Unrouted
        case PUT => if json then ReplaceProduct(tail, r.body.value) else Unrouted
    else Unrouted
  }

  /** A product's URL is no listing URL, and its path ends in the id. */
  lemma ProductUrlParts(id: string)
    ensures id != "" ==> QueryOf(ProductUrl(id)) == None
    ensures ProductUrl(id)[..|ProductsBase| + 1] == ProductsBase + "/"
    ensures ProductUrl(id)[|ProductsBase| + 1..] == id
  {
    var url := ProductUrl(id);
    if id != "" {
      assert url[|ProductsBase|] == '/';
      assert url != ProductsBase;
    }
  }

  /** How a request can end. */
  datatype Outcome<T> = Parsed(value: T) | NetworkFailure | MalformedBody

  /** The `catch` every client operation has: any failure is logged and the
      call resolves to `undefined`, so the caller sees only "no data". */
  function Settle<T>(o: Outcome<T>): (r: Option<T>)
    ensures r.None? <==> !o.Parsed?
    ensures o.Parsed? ==> r == Some(o.value)
  {
    match o
    case Parsed(v) => Some(v)
    case NetworkFailure => None
    case MalformedBody => None
  }
}
