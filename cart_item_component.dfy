/** One cart line as its own component (src/components/CartItem/CartItem.tsx):
    a number input and minus/plus buttons for the quantity, a remove button
    and the line total. The handlers act on the line passed in, without a
    lookup; `None` stands for a handler that dispatches nothing. */
module CartItemComponent {
  import opened Wrappers
  import opened CartContext

  /** `handleQuantityChange`: the typed quantity, when it parses to a whole
      number that is not negative; zero is let through. */
  function HandleQuantityChange(item: CartItem, parsed: Option<int>): (r: Option<CartAction>)
    ensures r.Some? <==> parsed.Some? && parsed.value >= 0
    ensures r.Some? ==> r.value == UpdateQuantity(item.product.id, parsed.value)
  {
    match parsed
    case Some(n) => if n >= 0 then Some(UpdateQuantity(item.product.id, n)) else None
    case None => None
  }

  /** `handleIncrease`: one more, with no cap of its own. */
  function HandleIncrease(item: CartItem): (a: CartAction)
    ensures a.UpdateQuantity? && a.productId == item.product.id && a.quantity == item.quantity + 1
  {
    UpdateQuantity(item.product.id, item.quantity + 1)
  }

  /** `handleDecrease`: one fewer, only above one. */
  function HandleDecrease(item: CartItem): (r: Option<CartAction>)
    ensures r.Some? <==> item.quantity > 1
    ensures r.Some? ==> r.value == UpdateQuantity(item.product.id, item.quantity - 1) && r.value.quantity >= 1
  {
    if item.quantity > 1 then Some(UpdateQuantity(item.product.id, item.quantity - 1)) else None
  }

  function HandleRemove(item: CartItem): (a: CartAction)
    ensures a.RemoveFromCart? && a.productId == item.product.id
  {
    RemoveFromCart(item.product.id)
  }

  predicate DecreaseDisabled(item: CartItem) {
    item.quantity <= 1
  }

  predicate IncreaseDisabled(item: CartItem) {
    item.quantity >= item.product.stockQuantity
  }

  /** `totalPrice`. */
  function TotalPrice(item: CartItem): (t: int)
    ensures t == LineAmount(item)
  {
    item.product.price * item.quantity
  }

  // ---------------------------------------------------------------------------
  // Properties
  // ---------------------------------------------------------------------------

  /** Typing 0 into a line of a valid cart removes that line, keeps the rest
      in order, and takes the line's price off the total. */
  lemma TypingZeroRemoves(cart: Cart, k: int)
    requires Valid(cart) && 0 <= k < |cart.items|
    ensures var item := cart.items[k];
      var r := CartReducer(cart, HandleQuantityChange(item, Some(0)).value);
      && r.items == cart.items[..k] + cart.items[k + 1..]
      && r.totalAmount == cart.totalAmount - TotalPrice(item)
  {
    var item := cart.items[k];
    UpdateSetsClamped(cart, k, 0);
    RemoveCutsLine(cart, k);
  }

  /** A typed quantity above zero is stored clamped to the product's stock. */
  lemma TypedQuantityClamped(cart: Cart, k: int, n: int)
    requires Valid(cart) && 0 <= k < |cart.items| && n > 0
    ensures var item := cart.items[k];
      var r := CartReducer(cart, HandleQuantityChange(item, Some(n)).value);
      r.items == cart.items[k := item.(quantity := Min(n, item.product.stockQuantity))]
  {
    UpdateSetsClamped(cart, k, n);
  }

  /** While the plus button is enabled it adds exactly one unit; once it is
      disabled the line is at its stock, where the reducer would not go past. */
  lemma IncreaseWithinStock(cart: Cart, k: int)
    requires Valid(cart) && 0 <= k < |cart.items|
    ensures var item := cart.items[k];
      var r := CartReducer(cart, HandleIncrease(item));
      && (!IncreaseDisabled(item) ==> r.items == cart.items[k := item.(quantity := item.quantity + 1)])
      && (IncreaseDisabled(item) ==> item.quantity == item.product.stockQuantity && r.items == cart.items)
  {
    var item := cart.items[k];
    UpdateSetsClamped(cart, k, item.quantity + 1);
    if IncreaseDisabled(item) {
      assert cart.items[k := item.(quantity := item.quantity)] == cart.items;
    }
  }

  /** The minus button is disabled exactly when it would dispatch nothing, and
      what it dispatches keeps the line, one unit lower. */
  lemma DecreaseKeepsLine(cart: Cart, k: int)
    requires Valid(cart) && 0 <= k < |cart.items|
    ensures var item := cart.items[k];
      && (DecreaseDisabled(item) <==> HandleDecrease(item).None?)
      && (!DecreaseDisabled(item) ==>
            CartReducer(cart, HandleDecrease(item).value).items
              == cart.items[k := item.(quantity := item.quantity - 1)])
  {
    var item := cart.items[k];
    if item.quantity > 1 {
      UpdateSetsClamped(cart, k, item.quantity - 1);
    }
  }
}
