/** The product records that the catalog, the cart and the filters share
    (src/types/product.ts). Only the fields the logic reads are kept. */
module ProductTypes {
  import opened Wrappers

  /** A product; `price` in whole currency units, `stockQuantity` the units on hand. */
  datatype Product = Product(id: string, price: int, stockQuantity: int)

  /** The catalog filter. `brandId` may be absent or `null` (both `None`). */
  datatype ProductFilter = ProductFilter(brandId: Option<string>, minPrice: Option<int>, maxPrice: Option<int>)

  /** The empty filter `{}`. */
  const NoFilter := ProductFilter(None, None, None)

  datatype PriceRange = PriceRange(minPrice: int, maxPrice: int)

  /** JavaScript truthiness of an optional string: present and non-empty. */
  predicate Truthy(s: Option<string>) {
    s.Some? && s.value != ""
  }
}
