/** The two-field price filter (src/components/PriceFilter/PriceFilter.tsx):
    each field forwards its new value together with the other field's
    current selection, and each shows its selection with JavaScript's `||`
    fallback to the range bound. The number conversion is an input. */
module PriceFilterComponent {
  import opened Wrappers
  import opened ProductTypes

  /** The arguments of one `onPriceChange(minPrice, maxPrice)` call. */
  datatype PriceChange = PriceChange(minPrice: Option<int>, maxPrice: Option<int>)

  /** `handleMinChange`: the new minimum, the maximum as selected. */
  function HandleMinChange(value: int, selectedMax: Option<int>): (c: PriceChange)
    ensures c.minPrice == Some(value) && c.maxPrice == selectedMax
  {
    PriceChange(Some(value), selectedMax)
  }

  /** `handleMaxChange`: the minimum as selected, the new maximum. */
  function HandleMaxChange(selectedMin: Option<int>, value: int): (c: PriceChange)
    ensures c.minPrice == selectedMin && c.maxPrice == Some(value)
  {
    PriceChange(selectedMin, Some(value))
  }

  /** `selectedMin || priceRange.minPrice`: an absent or zero selection
      shows the range's bound. */
  function DisplayedMin(selectedMin: Option<int>, range: PriceRange): int {
    match selectedMin
    case Some(v) => if v != 0 then v else range.minPrice
    case None => range.minPrice
  }

  /** `selectedMax || priceRange.maxPrice`. */
  function DisplayedMax(selectedMax: Option<int>, range: PriceRange): int {
    match selectedMax
    case Some(v) => if v != 0 then v else range.maxPrice
    case None => range.maxPrice
  }

  // ---------------------------------------------------------------------------
  // Properties
  // ---------------------------------------------------------------------------

  /** Editing one field never disturbs the other field's display. */
  lemma EditsAreIndependent(selectedMin: Option<int>, selectedMax: Option<int>, value: int, range: PriceRange)
    ensures DisplayedMax(HandleMinChange(value, selectedMax).maxPrice, range) == DisplayedMax(selectedMax, range)
    ensures DisplayedMin(HandleMaxChange(selectedMin, value).minPrice, range) == DisplayedMin(selectedMin, range)
  {
  }

  /** A field shows its own selection exactly when it is present and not zero;
      a typed value that is not zero is shown back as typed. */
  lemma DisplayFallback(selected: Option<int>, value: int, range: PriceRange)
    ensures DisplayedMin(selected, range) == (if selected.Some? && selected.value != 0 then selected.value else range.minPrice)
    ensures DisplayedMax(selected, range) == (if selected.Some? && selected.value != 0 then selected.value else range.maxPrice)
    ensures value != 0 ==> DisplayedMin(HandleMinChange(value, selected).minPrice, range) == value
    ensures value != 0 ==> DisplayedMax(HandleMaxChange(selected, value).maxPrice, range) == value
  {
  }
}
