/** The cart page (src/components/Cart/Cart.tsx): either the empty-cart
    notice or a table of lines with quantity steppers and remove buttons.
    Each handler looks the line up by product id and either dispatches an
    action to the cart store or does nothing. */
module CartComponent {
  import opened Wrappers
  import opened CartContext

  /** One table row: the product, its quantity, the line price and whether
      the minus button is disabled. */
  datatype Row = Row(productId: string, quantity: int, linePrice: int, decreaseDisabled: bool)

  /** What the page renders. */
  datatype Screen = EmptyNotice | Table(rows: seq<Row>, totalAmount: int)

  function RowOf(item: CartItem): Row {
    Row(item.product.id, item.quantity, item.product.price * item.quantity, item.quantity <= 1)
  }

  /** The page: the notice for an empty cart, otherwise a row per line in
      cart order and the cart's total. */
  function Render(cart: Cart): (s: Screen)
    ensures s.EmptyNotice? <==> cart.items == []
    ensures s.Table? ==> |s.rows| == |cart.items| && s.totalAmount == cart.totalAmount
    ensures s.Table? ==> forall i :: 0 <= i < |cart.items| ==>
      && s.rows[i].productId == cart.items[i].product.id
      && s.rows[i].quantity == cart.items[i].quantity
      && s.rows[i].linePrice == LineAmount(cart.items[i])
      && (s.rows[i].decreaseDisabled <==> cart.items[i].quantity <= 1)
  {
    if |cart.items| == 0 then EmptyNotice
    else Table(seq(|cart.items|, i requires 0 <= i < |cart.items| => RowOf(cart.items[i])), cart.totalAmount)
  }

  /** `handleIncreaseQuantity`: one more of the line found, if any. */
  function HandleIncrease(cart: Cart, productId: string): (r: Option<CartAction>)
    ensures r.None? <==> !HasProduct(cart.items, productId)
    ensures r.Some? ==> r.value == UpdateQuantity(productId, Find(cart.items, productId).value.quantity + 1)
  {
    match Find(cart.items, productId)
    case Some(item) => Some(UpdateQuantity(productId, item.quantity + 1))
    case None => None
  }

  /** `handleDecreaseQuantity`: one fewer, only for a line above one. */
  function HandleDecrease(cart: Cart, productId: string): (r: Option<CartAction>)
    ensures r.Some? <==> HasProduct(cart.items, productId) && Find(cart.items, productId).value.quantity > 1
    ensures r.Some? ==> r.value == UpdateQuantity(productId, Find(cart.items, productId).value.quantity - 1)
  {
    match Find(cart.items, productId)
    case Some(item) => if item.quantity > 1 then Some(UpdateQuantity(productId, item.quantity - 1)) else None
    case None => None
  }

  /** The remove button of a row passes that row's own product id. */
  function HandleRemove(item: CartItem): (a: CartAction)
    ensures a.RemoveFromCart? && a.productId == item.product.id
  {
    RemoveFromCart(item.product.id)
  }

  /** What the store holds after a handler ran: the reducer applied to the
      dispatched action, or the cart as it was. */
  function AfterHandler(cart: Cart, action: Option<CartAction>): Cart {
    match action
    case Some(a) => CartReducer(cart, a)
    case None => cart
  }

  // ---------------------------------------------------------------------------
  // Properties
  // ---------------------------------------------------------------------------

  /** With one line per product, looking up a line's id finds that line. */
  lemma FindsLine(items: seq<CartItem>, k: int)
    requires UniqueIds(items) && 0 <= k < |items|
    ensures Find(items, items[k].product.id) == Some(items[k])
  {
    var r := Find(items, items[k].product.id);
    assert HasProduct(items, items[k].product.id);
    var j :| 0 <= j < |items| && items[j] == r.value && r.value.product.id == items[k].product.id
             && forall i :: 0 <= i < j ==> items[i].product.id != items[k].product.id;
  }

  /** On a row of a valid cart the minus button is disabled exactly when
      pressing it would dispatch nothing. */
  lemma DecreaseDisabledExactlyWhenIdle(cart: Cart, k: int)
    requires Valid(cart) && 0 <= k < |cart.items|
    ensures Render(cart).rows[k].decreaseDisabled <==> HandleDecrease(cart, cart.items[k].product.id).None?
  {
    FindsLine(cart.items, k);
  }

  /** The minus button never takes a line of a valid cart below one: the line
      keeps its place with one unit fewer, and the cart stays valid. */
  lemma DecreaseKeepsLine(cart: Cart, k: int)
    requires Valid(cart) && 0 <= k < |cart.items|
    ensures var item := cart.items[k];
      var r := AfterHandler(cart, HandleDecrease(cart, item.product.id));
      && Valid(r)
      && (item.quantity > 1 ==> r.items == cart.items[k := item.(quantity := item.quantity - 1)])
      && (item.quantity <= 1 ==> r == cart)
  {
    var item := cart.items[k];
    FindsLine(cart.items, k);
    if item.quantity > 1 {
      UpdateSetsClamped(cart, k, item.quantity - 1);
      UpdatePreservesValid(cart, item.product.id, item.quantity - 1);
    }
  }

  /** The plus button on a line dispatches the reducer's quantity update for
      one more unit. */
  lemma IncreaseIsUpdate(cart: Cart, k: int)
    requires UniqueIds(cart.items) && 0 <= k < |cart.items|
    ensures var item := cart.items[k];
      AfterHandler(cart, HandleIncrease(cart, item.product.id))
        == CartReducer(cart, UpdateQuantity(item.product.id, item.quantity + 1))
  {
    FindsLine(cart.items, k);
  }

  /** The plus button adds one unit to a line of a valid cart below its stock,
      and at the stock limit the reducer's cap leaves the line as it is. */
  lemma IncreaseCappedByStock(cart: Cart, k: int)
    requires Valid(cart) && 0 <= k < |cart.items|
    ensures var item := cart.items[k];
      AfterHandler(cart, HandleIncrease(cart, item.product.id)).items
        == cart.items[k := item.(quantity := Min(item.quantity + 1, item.product.stockQuantity))]
  {
    var item := cart.items[k];
    assert 1 <= item.quantity <= item.product.stockQuantity by {
      assert LinesWithinStock(cart.items);
    }
    assert Max(0, Min(item.quantity + 1, item.product.stockQuantity)) > 0;
    UpdateSetsClamped(cart, k, item.quantity + 1);
    IncreaseIsUpdate(cart, k);
  }

  /** Whatever line the plus button is pressed on, the cart stays valid. */
  lemma IncreaseKeepsValid(cart: Cart, k: int)
    requires Valid(cart) && 0 <= k < |cart.items|
    ensures Valid(AfterHandler(cart, HandleIncrease(cart, cart.items[k].product.id)))
  {
    UpdatePreservesValid(cart, cart.items[k].product.id, cart.items[k].quantity + 1);
    IncreaseIsUpdate(cart, k);
  }

  /** Pressing a handler for a product that is not in the cart does nothing. */
  lemma AbsentProductIgnored(cart: Cart, productId: string)
    requires !HasProduct(cart.items, productId)
    ensures HandleIncrease(cart, productId).None? && HandleDecrease(cart, productId).None?
  {
  }
}
