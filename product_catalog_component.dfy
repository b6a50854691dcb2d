/** The catalog page (src/components/ProductCatalog/ProductCatalog.tsx): the
    brand list and price range loaded once, the products reloaded for every
    filter, the filter updates coming from the brand and price controls, and
    the error screen with its retry. Each load effect is a method that takes
    what the network delivered and returns the URLs it requested. */
module ProductCatalogComponent {
  import opened Wrappers
  import opened ProductTypes
  import opened ApiClient
  import opened Products

  datatype Brand = Brand(id: string, name: string)

  /** The entry that stands for "any brand". */
  const AllBrands := Brand("", "Все бренды")

  const LoadDataError := "Ошибка загрузки данных"
  const LoadProductsError := "Ошибка загрузки товаров"

  /** The brand list shown: "all brands" first, then the fetched brands. */
  function BrandOptions(fetched: seq<Brand>): (r: seq<Brand>)
    ensures |r| == |fetched| + 1 && r[0] == AllBrands && r[1..] == fetched
  {
    [AllBrands] + fetched
  }

  /** `onBrandChange`: an empty id (all brands) clears the brand; the price
      bounds are kept. */
  function BrandChanged(f: ProductFilter, brandId: string): ProductFilter {
    f.(brandId := if brandId != "" then Some(brandId) else None)
  }

  /** The `onChange` lambda the catalog passes to PriceSlider, which never
      calls it: both bounds replaced, the brand kept. */
  function PriceChanged(f: ProductFilter, minPrice: int, maxPrice: int): ProductFilter {
    f.(minPrice := Some(minPrice), maxPrice := Some(maxPrice))
  }

  /** `filter.brandId ?? ''`. */
  function SelectedBrand(f: ProductFilter): string {
    f.brandId.GetOr("")
  }

  /** `filter.minPrice ?? priceRange.minPrice`: only an absent bound defaults. */
  function SelectedMin(f: ProductFilter, range: PriceRange): int {
    f.minPrice.GetOr(range.minPrice)
  }

  function SelectedMax(f: ProductFilter, range: PriceRange): int {
    f.maxPrice.GetOr(range.maxPrice)
  }

  /** `if (error)`: the error screen replaces the page for a non-empty error. */
  predicate ShowsErrorScreen(error: Option<string>) {
    Truthy(error)
  }

  /** `disabled={selectedCount === 0}`. */
  predicate CheckoutDisabled(selectedCount: int) {
    selectedCount == 0
  }

  /** The catalog's state fields. */
  class CatalogState {
    var products: seq<Product>
    var brands: seq<Brand>
    var priceRange: PriceRange
    var filter: ProductFilter
    var loading: bool
    var error: Option<string>
    var selectedCount: int

    /** Nothing on the page ever calls `setSelectedCount`, so the count stays
        at its initial 0 and the checkout button stays disabled. */
    predicate CheckoutLocked()
      reads this
    {
      CheckoutDisabled(selectedCount)
    }

    /** The initial `useState` values. */
    constructor()
      ensures products == [] && brands == [] && priceRange == PriceRange(0, 0) && filter == NoFilter
      ensures !loading && error == None && selectedCount == 0
      ensures CheckoutLocked() && !ShowsErrorScreen(error)
    {
      products := [];
      brands := [];
      priceRange := PriceRange(0, 0);
      filter := NoFilter;
      loading := false;
      error := None;
      selectedCount := 0;
    }

    /** The mount effect: fetch the brands, then the unfiltered price range;
        any failure sets the data error and stops. */
    method LoadBrandsAndRange(fetchedBrands: Result<seq<Brand>, Error>, rangeReply: Reply<PriceRange>)
      returns (rangeUrl: Option<string>)
      requires CheckoutLocked()
      modifies this
      ensures CheckoutLocked()
      ensures fetchedBrands.Err? || ClassifyPriceRange(rangeReply).Err? ==> ShowsErrorScreen(error)
      ensures products == old(products) && filter == old(filter) && loading == old(loading)
      ensures selectedCount == old(selectedCount)
      ensures fetchedBrands.Err? ==>
        && rangeUrl == None && error == Some(LoadDataError)
        && brands == old(brands) && priceRange == old(priceRange)
      ensures fetchedBrands.Ok? ==>
        && brands == BrandOptions(fetchedBrands.value)
        && rangeUrl == Some(PriceRangeUrl(None))
        && (ClassifyPriceRange(rangeReply).Ok? ==>
              priceRange == ClassifyPriceRange(rangeReply).value && error == old(error))
        && (ClassifyPriceRange(rangeReply).Err? ==>
              priceRange == old(priceRange) && error == Some(LoadDataError))
    {
      match fetchedBrands {
        case Err(_) =>
          error := Some(LoadDataError);
          return None;
        case Ok(all) =>
          brands := BrandOptions(all);
      }
      rangeUrl := Some(PriceRangeUrl(None));
      var range := ClassifyPriceRange(rangeReply);
      match range {
        case Ok(r) => priceRange := PriceRange(r.minPrice, r.maxPrice);
        case Err(_) => error := Some(LoadDataError);
      }
    }

    /** The filter effect: loading on and the error cleared, then the products
        for the filter and the price range for its brand; any failure sets the
        products error, and loading ends off whatever happened. */
    method LoadProducts(productsReply: Reply<seq<Product>>, rangeReply: Reply<PriceRange>)
      returns (productsUrl: string, rangeUrl: Option<string>)
      requires CheckoutLocked()
      modifies this
      ensures CheckoutLocked()
      ensures ShowsErrorScreen(error)
          <==> ClassifyProducts(productsReply).Err? || ClassifyPriceRange(rangeReply).Err?
      ensures !loading
      ensures filter == old(filter) && brands == old(brands) && selectedCount == old(selectedCount)
      ensures productsUrl == ProductsUrl(QueryFor(old(filter)))
      ensures ClassifyProducts(productsReply).Err? ==>
        && rangeUrl == None && error == Some(LoadProductsError)
        && products == old(products) && priceRange == old(priceRange)
      ensures ClassifyProducts(productsReply).Ok? ==>
        && products == ClassifyProducts(productsReply).value
        && rangeUrl == Some(PriceRangeUrl(old(filter).brandId))
        && (ClassifyPriceRange(rangeReply).Ok? ==>
              priceRange == ClassifyPriceRange(rangeReply).value && error == None)
        && (ClassifyPriceRange(rangeReply).Err? ==>
              priceRange == old(priceRange) && error == Some(LoadProductsError))
    {
      loading := true;
      error := None;
      var params := BuildQuery(Some(filter));
      productsUrl := ProductsUrl(params);
      var prods := ClassifyProducts(productsReply);
      if prods.Err? {
        error := Some(LoadProductsError);
        rangeUrl := None;
      } else {
        products := prods.value;
        rangeUrl := Some(PriceRangeUrl(filter.brandId));
        var range := ClassifyPriceRange(rangeReply);
        if range.Err? {
          error := Some(LoadProductsError);
        } else {
          priceRange := PriceRange(range.value.minPrice, range.value.maxPrice);
        }
      }
      loading := false;
    }

    /** The brand control's callback. */
    method ChangeBrand(brandId: string)
      requires CheckoutLocked()
      modifies this
      ensures CheckoutLocked()
      ensures filter == BrandChanged(old(filter), brandId)
      ensures products == old(products) && brands == old(brands) && priceRange == old(priceRange)
      ensures loading == old(loading) && error == old(error) && selectedCount == old(selectedCount)
    {
      filter := BrandChanged(filter, brandId);
    }

    /** The `onChange` lambda the catalog passes to PriceSlider, which never
        calls it. */
    method ChangePrice(minPrice: int, maxPrice: int)
      requires CheckoutLocked()
      modifies this
      ensures CheckoutLocked()
      ensures filter == PriceChanged(old(filter), minPrice, maxPrice)
      ensures products == old(products) && brands == old(brands) && priceRange == old(priceRange)
      ensures loading == old(loading) && error == old(error) && selectedCount == old(selectedCount)
    {
      filter := PriceChanged(filter, minPrice, maxPrice);
    }

    /** The error screen's retry: the filter goes back to `{}`. */
    method Retry()
      requires CheckoutLocked()
      modifies this
      ensures CheckoutLocked()
      ensures filter == NoFilter
      ensures products == old(products) && brands == old(brands) && priceRange == old(priceRange)
      ensures loading == old(loading) && error == old(error) && selectedCount == old(selectedCount)
    {
      filter := NoFilter;
    }
  }

  // ---------------------------------------------------------------------------
  // Properties
  // ---------------------------------------------------------------------------

  /** Choosing a brand and reading the selection back gives that brand, and
      the price bounds are untouched; "all brands" removes the brand. */
  lemma BrandSelectionRoundTrip(f: ProductFilter, brandId: string, range: PriceRange)
    ensures SelectedBrand(BrandChanged(f, brandId)) == brandId
    ensures BrandChanged(f, brandId).brandId.None? <==> brandId == ""
    ensures SelectedMin(BrandChanged(f, brandId), range) == SelectedMin(f, range)
    ensures SelectedMax(BrandChanged(f, brandId), range) == SelectedMax(f, range)
  {
  }

  /** Applying the catalog's price lambda and reading the selection back
      gives the new bounds, and the selected brand is untouched. */
  lemma PriceSelectionRoundTrip(f: ProductFilter, minPrice: int, maxPrice: int, range: PriceRange)
    ensures SelectedMin(PriceChanged(f, minPrice, maxPrice), range) == minPrice
    ensures SelectedMax(PriceChanged(f, minPrice, maxPrice), range) == maxPrice
    ensures PriceChanged(f, minPrice, maxPrice).brandId == f.brandId
  {
  }

  /** With the empty filter the brand shows as "all brands", the bounds show
      the loaded range, and the products query is the bare path. */
  lemma DefaultSelections(range: PriceRange)
    ensures SelectedBrand(NoFilter) == AllBrands.id
    ensures SelectedMin(NoFilter, range) == range.minPrice
    ensures SelectedMax(NoFilter, range) == range.maxPrice
    ensures ProductsUrl(QueryFor(NoFilter)) == ProductsPath
  {
  }

  /** A brand chosen in the list reaches the products query exactly when it
      is a real brand, not "all brands". */
  lemma {:induction false} BrandReachesQuery(f: ProductFilter, brandId: string)
    ensures Lookup(QueryFor(BrandChanged(f, brandId)), BrandKey)
         == (if brandId == "" then None else Some(brandId))
  {
    QueryLookups(BrandChanged(f, brandId));
  }
}
