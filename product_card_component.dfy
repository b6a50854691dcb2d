/** A catalog tile (src/components/ProductCard/ProductCard.tsx): the product's
    button adds it to the cart once, and its label and style say whether the
    product is sold out, already chosen, or available. */
module ProductCardComponent {
  import opened Wrappers
  import opened ProductTypes
  import opened CartContext

  const BaseClass := "product-button"
  const DisabledModifier := " product-button--disabled"
  const SelectedModifier := " product-button--selected"
  const DefaultModifier := " product-button--default"
  const ChooseLabel := "Выбрать"
  const SoldOutLabel := "Закончился"
  const ChosenLabel := "Выбрано"

  /** The button's class and text. */
  datatype Button = Button(className: string, text: string)

  /** `cart.items.some(item => item.product.id === product.id)`. */
  function SomeHasId(items: seq<CartItem>, id: string): (r: bool)
    ensures r <==> HasProduct(items, id)
  {
    if items == [] then false
    else if items[0].product.id == id then true
    else
      var r := SomeHasId(items[1..], id);
      assert HasProduct(items, id) ==> HasProduct(items[1..], id) by {
        if HasProduct(items, id) {
          var i :| 0 <= i < |items| && items[i].product.id == id;
          assert items[1..][i - 1] == items[i];
        }
      }
      r
  }

  predicate IsInCart(cart: Cart, p: Product) {
    SomeHasId(cart.items, p.id)
  }

  predicate IsOutOfStock(p: Product) {
    p.stockQuantity == 0
  }

  /** `handleAddToCart`: add only a product in stock and not yet chosen. */
  function HandleAddToCart(cart: Cart, p: Product): (r: Option<CartAction>)
    ensures r.Some? <==> p.stockQuantity != 0 && !HasProduct(cart.items, p.id)
    ensures r.Some? ==> r.value == AddToCart(p)
  {
    if !IsOutOfStock(p) && !IsInCart(cart, p) then Some(AddToCart(p)) else None
  }

  /** The `let`/`if` chain choosing the class and the text. */
  function ButtonFor(cart: Cart, p: Product): Button {
    if IsOutOfStock(p) then Button(BaseClass + DisabledModifier, SoldOutLabel)
    else if IsInCart(cart, p) then Button(BaseClass + SelectedModifier, ChosenLabel)
    else Button(BaseClass + DefaultModifier, ChooseLabel)
  }

  /** `disabled={isOutOfStock}`. */
  predicate ButtonDisabled(p: Product) {
    IsOutOfStock(p)
  }

  /** The cart after a click: the dispatched action applied, or unchanged. */
  function AfterClick(cart: Cart, p: Product): Cart {
    match HandleAddToCart(cart, p)
    case Some(a) => CartReducer(cart, a)
    case None => cart
  }

  // ---------------------------------------------------------------------------
  // Properties
  // ---------------------------------------------------------------------------

  /** Sold out wins over chosen, which wins over the default, for both the
      class and the label; the button is disabled only when sold out, so a
      chosen product's button stays enabled. */
  lemma ButtonPrecedence(cart: Cart, p: Product)
    ensures p.stockQuantity == 0 ==>
      && ButtonFor(cart, p).className == BaseClass + DisabledModifier
      && ButtonFor(cart, p).text == SoldOutLabel && ButtonDisabled(p)
    ensures p.stockQuantity != 0 && HasProduct(cart.items, p.id) ==>
      && ButtonFor(cart, p).className == BaseClass + SelectedModifier
      && ButtonFor(cart, p).text == ChosenLabel && !ButtonDisabled(p)
    ensures p.stockQuantity != 0 && !HasProduct(cart.items, p.id) ==>
      && ButtonFor(cart, p).className == BaseClass + DefaultModifier
      && ButtonFor(cart, p).text == ChooseLabel && !ButtonDisabled(p)
    ensures ButtonDisabled(p) <==> p.stockQuantity == 0
  {
  }

  /** A click adds something exactly when the button reads "Выбрать". */
  lemma ClickAddsExactlyWhenChoosable(cart: Cart, p: Product)
    ensures HandleAddToCart(cart, p).Some? <==> ButtonFor(cart, p).text == ChooseLabel
  {
  }

  /** A click appends the product once; a second click finds it in the cart
      and does nothing, and the button then reads "Выбрано". */
  lemma SecondClickIsNoOp(cart: Cart, p: Product)
    requires p.stockQuantity != 0
    ensures var once := AfterClick(cart, p);
      && HasProduct(once.items, p.id)
      && HandleAddToCart(once, p).None?
      && AfterClick(once, p) == once
      && ButtonFor(once, p).text == ChosenLabel
  {
    var once := AfterClick(cart, p);
    if !HasProduct(cart.items, p.id) {
      AddNewAppends(cart, p);
      assert once.items[|cart.items|].product.id == p.id;
    }
  }

  /** Adding through the card keeps a valid cart valid, for any product whose
      stock is not negative. */
  lemma ClickPreservesValid(cart: Cart, p: Product)
    requires Valid(cart) && p.stockQuantity >= 0
    ensures Valid(AfterClick(cart, p))
  {
    if HandleAddToCart(cart, p).Some? {
      AddNewPreservesValid(cart, p);
    }
  }
}
