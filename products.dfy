/** The product queries (src/api/products.ts): the URL `getProducts` builds
    from a filter, the URL `getPriceRange` builds from a brand, and how each
    turns what the network delivered into a value or a thrown error. These
    two calls use `fetch` directly, not the shared API client. */
module Products {
  import opened Wrappers
  import opened ProductTypes
  import opened ApiClient
  import Text

  const ProductsPath := "/api/products"
  const PriceRangePath := "/api/products/price-range"
  const BrandKey := "brandId"
  const MinPriceKey := "minPrice"
  const MaxPriceKey := "maxPrice"

  const ProductsBusyError := "Автомат занят, попробуйте позже"
  const ProductsDefaultError := "Ошибка получения товаров"
  const PriceRangeError := "Не удалось загрузить диапазон цен"

  /** The query parameters in the order they were appended. */
  type Query = seq<(string, string)>

  /** The decoded JSON body, or the error `response.json()` threw. */
  datatype Body<T> = Unparsable(error: Error) | Parsed(success: bool, message: string, data: Option<T>)

  /** What `fetch` delivered: a rejection, or a status and a body. */
  datatype Reply<T> = Rejected(error: Error) | Replied(status: int, body: Body<T>)

  /** The parameters `getProducts` appends for a filter: the brand when truthy,
      then each price bound whenever it is defined, zero included. */
  function QueryFor(f: ProductFilter): Query {
    (if Truthy(f.brandId) then [(BrandKey, f.brandId.value)] else [])
    + (if f.minPrice.Some? then [(MinPriceKey, Text.IntToString(f.minPrice.value))] else [])
    + (if f.maxPrice.Some? then [(MaxPriceKey, Text.IntToString(f.maxPrice.value))] else [])
  }

  /** The value of the first parameter named `key`, as `params.get(key)`. */
  function Lookup(q: Query, key: string): (r: Option<string>)
    ensures r.Some? ==> (key, r.value) in q
  {
    if q == [] then None
    else if q[0].0 == key then Some(q[0].1)
    else Lookup(q[1..], key)
  }

  /** The `URLSearchParams` construction in `getProducts`, one append at a time. */
  method BuildQuery(filter: Option<ProductFilter>) returns (params: Query)
    ensures params == QueryFor(filter.GetOr(NoFilter))
  {
    var f := filter.GetOr(NoFilter);
    params := [];
    if Truthy(f.brandId) {
      params := params + [(BrandKey, f.brandId.value)];
    }
    if f.minPrice.Some? {
      params := params + [(MinPriceKey, Text.IntToString(f.minPrice.value))];
    }
    if f.maxPrice.Some? {
      params := params + [(MaxPriceKey, Text.IntToString(f.maxPrice.value))];
    }
  }

  /** `params.toString()`: `key=value` pairs joined by `&`. */
  function Serialize(q: Query): (s: string)
    ensures s == "" <==> q == []
  {
    if q == [] then ""
    else
      var pair := q[0].0 + "=" + q[0].1;
      assert pair[|q[0].0|] == '=';
      if |q| == 1 then pair else pair + "&" + Serialize(q[1..])
  }

  /** The URL `getProducts` fetches: the path, then `?` and the query when it
      is not empty. */
  function ProductsUrl(q: Query): (url: string)
    ensures q == [] <==> url == ProductsPath
    ensures q != [] ==> |url| > |ProductsPath| && url[..|ProductsPath|] == ProductsPath && url[|ProductsPath|] == '?'
                        && url[|ProductsPath| + 1..] == Serialize(q)
  {
    var s := Serialize(q);
    if s != "" then ProductsPath + "?" + s else ProductsPath
  }

  /** `getProducts` after `fetch`: 423 first, then the body's flag and data.
      Other failures are rethrown unchanged; the HTTP status is not otherwise
      looked at. */
  function ClassifyProducts(x: Reply<seq<Product>>): Result<seq<Product>, Error> {
    match x
    case Rejected(e) => Err(e)
    case Replied(status, body) =>
      if status == 423 then Err(Error(ProductsBusyError))
      else match body
        case Unparsable(e) => Err(e)
        case Parsed(success, message, data) =>
          if !success || data.None? then Err(Error(if message != "" then message else ProductsDefaultError))
          else Ok(data.value)
  }

  /** The suffix `getPriceRange` adds: `?brandId=` and the id, for a truthy id only. */
  function PriceRangeUrl(brandId: Option<string>): (url: string)
    ensures !Truthy(brandId) <==> url == PriceRangePath
    ensures Truthy(brandId) ==> url == PriceRangePath + "?" + BrandKey + "=" + brandId.value
  {
    PriceRangePath + (if Truthy(brandId) then "?brandId=" + brandId.value else "")
  }

  /** `getPriceRange` after `fetch`: every failure becomes the same error. */
  function ClassifyPriceRange(x: Reply<PriceRange>): Result<PriceRange, Error> {
    match x
    case Rejected(_) => Err(Error(PriceRangeError))
    case Replied(_, body) =>
      match body
      case Unparsable(_) => Err(Error(PriceRangeError))
      case Parsed(success, _, data) =>
        if !success || data.None? then Err(Error(PriceRangeError)) else Ok(data.value)
  }

  // ---------------------------------------------------------------------------
  // Properties
  // ---------------------------------------------------------------------------

  /** Each parameter is present exactly when `getProducts` appends it, with
      the filter's value: the brand only when truthy, a price bound whenever
      defined. */
  lemma {:induction false} QueryLookups(f: ProductFilter)
    ensures Lookup(QueryFor(f), BrandKey) == (if Truthy(f.brandId) then Some(f.brandId.value) else None)
    ensures Lookup(QueryFor(f), MinPriceKey)
         == (if f.minPrice.Some? then Some(Text.IntToString(f.minPrice.value)) else None)
    ensures Lookup(QueryFor(f), MaxPriceKey)
         == (if f.maxPrice.Some? then Some(Text.IntToString(f.maxPrice.value)) else None)
  {
    var b: Query := if Truthy(f.brandId) then [(BrandKey, f.brandId.value)] else [];
    var lo: Query := if f.minPrice.Some? then [(MinPriceKey, Text.IntToString(f.minPrice.value))] else [];
    var hi: Query := if f.maxPrice.Some? then [(MaxPriceKey, Text.IntToString(f.maxPrice.value))] else [];
    assert BrandKey != MinPriceKey && BrandKey != MaxPriceKey && MinPriceKey != MaxPriceKey by {
      assert BrandKey[0] == 'b' && MinPriceKey[0] == 'm' && MinPriceKey[1] == 'i' && MaxPriceKey[1] == 'a';
    }
    assert QueryFor(f) == b + (lo + hi);
    LookupAppend(b, lo + hi, BrandKey);
    LookupAppend(b, lo + hi, MinPriceKey);
    LookupAppend(b, lo + hi, MaxPriceKey);
    LookupAppend(lo, hi, BrandKey);
    LookupAppend(lo, hi, MinPriceKey);
    LookupAppend(lo, hi, MaxPriceKey);
  }

  /** A lookup in a concatenation finds the first part's entry if it has one. */
  lemma {:induction false} LookupAppend(p: Query, r: Query, key: string)
    ensures Lookup(p + r, key) == if Lookup(p, key).Some? then Lookup(p, key) else Lookup(r, key)
  {
    if p == [] {
      assert p + r == r;
    } else {
      assert (p + r)[1..] == p[1..] + r;
      LookupAppend(p[1..], r, key);
    }
  }

  /** The order is brand, then minimum, then maximum, with nothing else. */
  lemma QueryOrder(f: ProductFilter)
    ensures |QueryFor(f)| <= 3
    ensures forall i, j :: 0 <= i < j < |QueryFor(f)| ==>
      KeyRank(QueryFor(f)[i].0) < KeyRank(QueryFor(f)[j].0)
  {
  }

  function KeyRank(key: string): int {
    if key == BrandKey then 0 else if key == MinPriceKey then 1 else 2
  }

  /** The query pins the filter down: two filters with the same query have
      the same price bounds and the same truthy brand. */
  lemma QueryDeterminesFilter(f: ProductFilter, g: ProductFilter)
    requires QueryFor(f) == QueryFor(g)
    ensures f.minPrice == g.minPrice && f.maxPrice == g.maxPrice
    ensures Truthy(f.brandId) <==> Truthy(g.brandId)
    ensures Truthy(f.brandId) ==> f.brandId == g.brandId
  {
    QueryLookups(f);
    QueryLookups(g);
    if f.minPrice.Some? && g.minPrice.Some? {
      Text.IntToStringInjective(f.minPrice.value, g.minPrice.value);
    }
    if f.maxPrice.Some? && g.maxPrice.Some? {
      Text.IntToStringInjective(f.maxPrice.value, g.maxPrice.value);
    }
  }

  /** No filter, or an empty one, fetches the bare path. */
  lemma NoFilterBarePath()
    ensures QueryFor(NoFilter) == []
    ensures ProductsUrl(QueryFor(NoFilter)) == ProductsPath
  {
  }

  /** A 423 is reported as busy before the body is looked at. */
  lemma ProductsBusyFirst(body: Body<seq<Product>>)
    ensures ClassifyProducts(Replied(423, body)) == Err(Error(ProductsBusyError))
  {
  }

  /** Products are returned exactly for a non-423 reply whose body parsed with
      success and data, and a failing body reports its message or the default. */
  lemma ProductsOutcome(x: Reply<seq<Product>>)
    ensures ClassifyProducts(x).Ok? <==>
      x.Replied? && x.status != 423 && x.body.Parsed? && x.body.success && x.body.data.Some?
    ensures ClassifyProducts(x).Ok? ==> ClassifyProducts(x).value == x.body.data.value
    ensures x.Replied? && x.status != 423 && x.body.Parsed? && !(x.body.success && x.body.data.Some?) ==>
      ClassifyProducts(x).error.message
        == (if x.body.message == "" then ProductsDefaultError else x.body.message)
  {
  }

  /** The price range is returned for any status once the body parsed with
      success and data; every other reply is the one fixed error. */
  lemma PriceRangeOutcome(x: Reply<PriceRange>)
    ensures ClassifyPriceRange(x).Ok? <==> x.Replied? && x.body.Parsed? && x.body.success && x.body.data.Some?
    ensures ClassifyPriceRange(x).Err? ==> ClassifyPriceRange(x).error == Error(PriceRangeError)
  {
  }
}
