/** The shopping cart store (src/context/CartContext.tsx): a reducer over the
    list of cart items that recomputes the two totals after every change. */
module CartContext {
  import opened Wrappers
  import opened ProductTypes

  datatype CartItem = CartItem(product: Product, quantity: int)

  datatype Cart = Cart(items: seq<CartItem>, totalAmount: int, totalQuantity: int)

  /** The state the provider starts from, and the one CLEAR_CART produces. */
  const EmptyCart := Cart([], 0, 0)

  datatype CartAction =
    | AddToCart(product: Product)
    | RemoveFromCart(productId: string)
    | UpdateQuantity(productId: string, quantity: int)
    | ClearCart

  // ---------------------------------------------------------------------------
  // List helpers: the array methods the reducer is written with
  // ---------------------------------------------------------------------------

  function Min(a: int, b: int): int { if a <= b then a else b }

  function Max(a: int, b: int): int { if a >= b then a else b }

  predicate HasProduct(items: seq<CartItem>, id: string) {
    exists i :: 0 <= i < |items| && items[i].product.id == id
  }

  /** No two items of the list belong to the same product. */
  predicate UniqueIds(items: seq<CartItem>) {
    forall i, j :: 0 <= i < j < |items| ==> items[i].product.id != items[j].product.id
  }

  /** `items.find(item => item.product.id === id)`: the first item of that product. */
  function Find(items: seq<CartItem>, id: string): (r: Option<CartItem>)
    ensures r.None? <==> !HasProduct(items, id)
    ensures r.Some? ==> exists k :: 0 <= k < |items| && items[k] == r.value && r.value.product.id == id
                                   && forall j :: 0 <= j < k ==> items[j].product.id != id
  {
    if items == [] then None
    else if items[0].product.id == id then Some(items[0])
    else
      var r := Find(items[1..], id);
      assert HasProduct(items, id) <==> HasProduct(items[1..], id) by {
        if HasProduct(items, id) {
          var i :| 0 <= i < |items| && items[i].product.id == id;
          assert items[1..][i - 1] == items[i];
        }
      }
      if r.Some? then
        var k :| 0 <= k < |items[1..]| && items[1..][k] == r.value && r.value.product.id == id
                 && forall j :: 0 <= j < k ==> items[1..][j].product.id != id;
        assert items[k + 1] == r.value;
        assert forall j :: 0 <= j < k + 1 ==> items[j].product.id != id by {
          forall j | 0 <= j < k + 1 ensures items[j].product.id != id {
            if j > 0 { assert items[j] == items[1..][j - 1]; }
          }
        }
        r
      else r
  }

  /** `items.filter(keep)`: the items that satisfy `keep`, in their original order. */
  function Filter(items: seq<CartItem>, keep: CartItem -> bool): (r: seq<CartItem>)
    ensures |r| <= |items|
  {
    if items == [] then []
    else (if keep(items[0]) then [items[0]] else []) + Filter(items[1..], keep)
  }

  /** `items.map(item => item.product.id === id ? { ...item, quantity: q(item) } : item)`. */
  function MapWhere(items: seq<CartItem>, id: string, q: CartItem -> int): seq<CartItem> {
    seq(|items|, i requires 0 <= i < |items| =>
      if items[i].product.id == id then items[i].(quantity := q(items[i])) else items[i])
  }

  /** The line total `product.price * quantity` of one item. */
  function LineAmount(item: CartItem): int { item.product.price * item.quantity }

  function LineQuantity(item: CartItem): int { item.quantity }

  /** The sum of `f` over the items (the reference definition of a total). */
  function Sum(items: seq<CartItem>, f: CartItem -> int): int {
    if items == [] then 0 else f(items[0]) + Sum(items[1..], f)
  }

  /** `items.reduce((sum, item) => sum + f(item), acc)`: a left fold from `acc`. */
  function Fold(items: seq<CartItem>, f: CartItem -> int, acc: int): int {
    if items == [] then acc else Fold(items[1..], f, acc + f(items[0]))
  }

  // ---------------------------------------------------------------------------
  // The reducer
  // ---------------------------------------------------------------------------

  /** `calculateCart`: the items together with their money and unit totals. */
  function CalculateCart(items: seq<CartItem>): (c: Cart)
    ensures c.items == items
    ensures c.totalAmount == Sum(items, LineAmount)
    ensures c.totalQuantity == Sum(items, LineQuantity)
  {
    FoldIsSum(items, LineAmount, 0);
    FoldIsSum(items, LineQuantity, 0);
    Cart(items, Fold(items, LineAmount, 0), Fold(items, LineQuantity, 0))
  }

  /** The new quantity ADD_TO_CART gives an item already in the cart: one more,
      capped by the stock of the product being added. */
  function Bumped(p: Product): CartItem -> int {
    (item: CartItem) => Min(item.quantity + 1, p.stockQuantity)
  }

  /** The quantity UPDATE_QUANTITY gives its target: the request clamped to [0, stock]. */
  function Clamped(quantity: int): CartItem -> int {
    (item: CartItem) => Max(0, Min(quantity, item.product.stockQuantity))
  }

  function OtherProduct(id: string): CartItem -> bool {
    (item: CartItem) => item.product.id != id
  }

  function PositiveQuantity(): CartItem -> bool {
    (item: CartItem) => item.quantity > 0
  }

  /** `cartReducer`. */
  function CartReducer(state: Cart, action: CartAction): Cart {
    match action
    case AddToCart(p) =>
      if Find(state.items, p.id).Some? then
        CalculateCart(MapWhere(state.items, p.id, Bumped(p)))
      else
        CalculateCart(state.items + [CartItem(p, 1)])
    case RemoveFromCart(id) =>
      CalculateCart(Filter(state.items, OtherProduct(id)))
    case UpdateQuantity(id, quantity) =>
      CalculateCart(Filter(MapWhere(state.items, id, Clamped(quantity)), PositiveQuantity()))
    case ClearCart =>
      EmptyCart
  }

  /** The invariant the user interface maintains: one line per product, every
      quantity between 1 and the product's stock, and totals that match the lines. */
  predicate Valid(c: Cart) {
    && LinesWithinStock(c.items)
    && c.totalAmount == Sum(c.items, LineAmount)
    && c.totalQuantity == Sum(c.items, LineQuantity)
  }

  predicate LinesWithinStock(items: seq<CartItem>) {
    && UniqueIds(items)
    && (forall i :: 0 <= i < |items| ==> 1 <= items[i].quantity <= items[i].product.stockQuantity)
  }

  // ---------------------------------------------------------------------------
  // Lemmas about sums and list helpers
  // ---------------------------------------------------------------------------

  /** The reducer's left fold computes the reference sum. */
  lemma {:induction false} FoldIsSum(items: seq<CartItem>, f: CartItem -> int, acc: int)
    ensures Fold(items, f, acc) == acc + Sum(items, f)
  {
    if items != [] {
      FoldIsSum(items[1..], f, acc + f(items[0]));
    }
  }

  lemma {:induction false} SumAppend(a: seq<CartItem>, b: seq<CartItem>, f: CartItem -> int)
    ensures Sum(a + b, f) == Sum(a, f) + Sum(b, f)
  {
    if a == [] {
      assert a + b == b;
    } else {
      assert (a + b)[1..] == a[1..] + b;
      SumAppend(a[1..], b, f);
    }
  }

  /** Replacing one item changes a sum by the difference of the two items' terms. */
  lemma {:induction false} SumReplace(items: seq<CartItem>, k: int, x: CartItem, f: CartItem -> int)
    requires 0 <= k < |items|
    ensures Sum(items[k := x], f) == Sum(items, f) - f(items[k]) + f(x)
  {
    if k > 0 {
      assert items[k := x][1..] == items[1..][k - 1 := x];
      SumReplace(items[1..], k - 1, x, f);
    }
  }

  /** Filtering distributes over concatenation, so it keeps the relative order of what it keeps. */
  lemma {:induction false} FilterAppend(a: seq<CartItem>, b: seq<CartItem>, keep: CartItem -> bool)
    ensures Filter(a + b, keep) == Filter(a, keep) + Filter(b, keep)
  {
    if a == [] {
      assert a + b == b;
    } else {
      var ab := a + b;
      assert ab != [] && ab[0] == a[0];
      assert ab[1..] == a[1..] + b;
      FilterAppend(a[1..], b, keep);
      var head := if keep(a[0]) then [a[0]] else [];
      calc {
        Filter(ab, keep);
        head + Filter(a[1..] + b, keep);
        head + (Filter(a[1..], keep) + Filter(b, keep));
        (head + Filter(a[1..], keep)) + Filter(b, keep);
      }
    }
  }

  /** An item survives the filter exactly when it was in the list and passes `keep`. */
  lemma {:induction false} FilterMembers(items: seq<CartItem>, keep: CartItem -> bool, it: CartItem)
    ensures it in Filter(items, keep) <==> it in items && keep(it)
  {
    if items != [] {
      FilterMembers(items[1..], keep, it);
      assert it in items <==> it == items[0] || it in items[1..];
    }
  }

  /** A filter that every item passes returns the list unchanged. */
  lemma {:induction false} FilterKeepsAll(items: seq<CartItem>, keep: CartItem -> bool)
    requires forall i :: 0 <= i < |items| ==> keep(items[i])
    ensures Filter(items, keep) == items
  {
    if items != [] {
      FilterKeepsAll(items[1..], keep);
    }
  }

  /** A filter that only item `k` fails removes exactly that item. */
  lemma {:induction false} FilterDropsOne(items: seq<CartItem>, k: int, keep: CartItem -> bool)
    requires 0 <= k < |items|
    requires !keep(items[k])
    requires forall i :: 0 <= i < |items| && i != k ==> keep(items[i])
    ensures Filter(items, keep) == items[..k] + items[k + 1..]
  {
    var rest := items[1..];
    if k == 0 {
      assert forall i :: 0 <= i < |rest| ==> keep(rest[i]) by {
        forall i | 0 <= i < |rest| ensures keep(rest[i]) {
          assert rest[i] == items[i + 1];
        }
      }
      FilterKeepsAll(rest, keep);
    } else {
      assert forall i :: 0 <= i < |rest| && i != k - 1 ==> keep(rest[i]) by {
        forall i | 0 <= i < |rest| && i != k - 1 ensures keep(rest[i]) {
          assert rest[i] == items[i + 1];
        }
      }
      FilterDropsOne(rest, k - 1, keep);
      assert items[..k] == [items[0]] + rest[..k - 1];
      assert items[k + 1..] == rest[k..];
    }
  }

  /** With unique ids, mapping over one product touches exactly its single line. */
  lemma MapWhereAt(items: seq<CartItem>, k: int, q: CartItem -> int)
    requires UniqueIds(items) && 0 <= k < |items|
    ensures MapWhere(items, items[k].product.id, q) == items[k := items[k].(quantity := q(items[k]))]
  {
  }

  // ---------------------------------------------------------------------------
  // Properties of the reducer
  // ---------------------------------------------------------------------------

  /** ADD_TO_CART for a product already present raises its quantity by one,
      capped at the added product's stock, and leaves every other line alone. */
  lemma AddExistingBumpsQuantity(state: Cart, p: Product)
    requires HasProduct(state.items, p.id)
    ensures var r := CartReducer(state, AddToCart(p));
      && |r.items| == |state.items|
      && forall i :: 0 <= i < |r.items| ==>
           && r.items[i].product == state.items[i].product
           && r.items[i].quantity == (if state.items[i].product.id == p.id
                                      then Min(state.items[i].quantity + 1, p.stockQuantity)
                                      else state.items[i].quantity)
  {
  }

  /** ...and, with unique ids, its totals move by exactly that line's change. */
  lemma {:induction false} AddExistingTotals(state: Cart, p: Product, k: int)
    requires UniqueIds(state.items) && 0 <= k < |state.items| && state.items[k].product.id == p.id
    ensures var r := CartReducer(state, AddToCart(p));
      var old_q := state.items[k].quantity;
      var new_q := Min(old_q + 1, p.stockQuantity);
      && r.totalQuantity == Sum(state.items, LineQuantity) + (new_q - old_q)
      && r.totalAmount == Sum(state.items, LineAmount) + state.items[k].product.price * (new_q - old_q)
  {
    var item := state.items[k];
    var old_q := item.quantity;
    var new_q := Min(old_q + 1, p.stockQuantity);
    var updated := item.(quantity := new_q);
    var m := state.items[k := updated];
    assert CartReducer(state, AddToCart(p)) == CalculateCart(m) by {
      assert HasProduct(state.items, p.id);
      assert Bumped(p)(item) == new_q;
      MapWhereAt(state.items, k, Bumped(p));
    }
    SumReplace(state.items, k, updated, LineQuantity);
    SumReplace(state.items, k, updated, LineAmount);
    var price := item.product.price;
    assert LineAmount(updated) - LineAmount(item) == price * (new_q - old_q) by {
      assert LineAmount(updated) == price * new_q;
      assert LineAmount(item) == price * old_q;
      MulSubDistributes(price, new_q, old_q);
    }
  }

  /** Multiplication distributes over the difference of two quantities. */
  lemma MulSubDistributes(price: int, a: int, b: int)
    ensures price * a - price * b == price * (a - b)
  {
  }

  /** ADD_TO_CART for a new product appends one unit of it at the end, without
      looking at its stock. */
  lemma {:induction false} AddNewAppends(state: Cart, p: Product)
    requires !HasProduct(state.items, p.id)
    ensures var r := CartReducer(state, AddToCart(p));
      && r.items == state.items + [CartItem(p, 1)]
      && r.totalQuantity == Sum(state.items, LineQuantity) + 1
      && r.totalAmount == Sum(state.items, LineAmount) + p.price
  {
    SumAppend(state.items, [CartItem(p, 1)], LineQuantity);
    SumAppend(state.items, [CartItem(p, 1)], LineAmount);
  }

  /** ADD_TO_CART never creates a second line for the same product. */
  lemma AddKeepsIdsUnique(state: Cart, p: Product)
    requires UniqueIds(state.items)
    ensures UniqueIds(CartReducer(state, AddToCart(p)).items)
  {
    var r := CartReducer(state, AddToCart(p));
    if !HasProduct(state.items, p.id) {
      assert r.items == state.items + [CartItem(p, 1)];
      forall i, j | 0 <= i < j < |r.items| ensures r.items[i].product.id != r.items[j].product.id {
        if j == |state.items| {
          assert r.items[i] == state.items[i];
        }
      }
    }
  }

  /** REMOVE_FROM_CART keeps exactly the lines of other products. */
  lemma RemoveKeepsOthers(state: Cart, id: string)
    ensures var r := CartReducer(state, RemoveFromCart(id));
      forall it :: it in r.items <==> it in state.items && it.product.id != id
  {
    forall it: CartItem {
      FilterMembers(state.items, OtherProduct(id), it);
    }
  }

  /** With unique ids, REMOVE_FROM_CART cuts out the one line of the product,
      keeps the others in order, and the totals drop by that line. */
  lemma RemoveCutsLine(state: Cart, k: int)
    requires UniqueIds(state.items) && 0 <= k < |state.items|
    ensures var r := CartReducer(state, RemoveFromCart(state.items[k].product.id));
      && r.items == state.items[..k] + state.items[k + 1..]
      && r.totalQuantity == Sum(state.items, LineQuantity) - state.items[k].quantity
      && r.totalAmount == Sum(state.items, LineAmount) - LineAmount(state.items[k])
  {
    var items := state.items;
    FilterDropsOne(items, k, OtherProduct(items[k].product.id));
    assert items == items[..k] + ([items[k]] + items[k + 1..]);
    SumAppend(items[..k], [items[k]] + items[k + 1..], LineQuantity);
    SumAppend(items[..k], [items[k]] + items[k + 1..], LineAmount);
    SumAppend(items[..k], items[k + 1..], LineQuantity);
    SumAppend(items[..k], items[k + 1..], LineAmount);
  }

  /** Removing a product that is not in the cart changes nothing. */
  lemma {:induction false} RemoveAbsentIsIdentity(state: Cart, id: string)
    requires !HasProduct(state.items, id)
    ensures CartReducer(state, RemoveFromCart(id)).items == state.items
  {
    FilterKeepsAll(state.items, OtherProduct(id));
  }

  /** After UPDATE_QUANTITY every remaining line has a positive quantity. */
  lemma UpdateLeavesPositive(state: Cart, id: string, quantity: int)
    ensures var r := CartReducer(state, UpdateQuantity(id, quantity));
      forall i :: 0 <= i < |r.items| ==> r.items[i].quantity > 0
  {
    var r := CartReducer(state, UpdateQuantity(id, quantity));
    var mapped := MapWhere(state.items, id, Clamped(quantity));
    forall i | 0 <= i < |r.items| ensures r.items[i].quantity > 0 {
      FilterMembers(mapped, PositiveQuantity(), r.items[i]);
    }
  }

  /** UPDATE_QUANTITY on a valid cart sets the target line to the requested
      quantity clamped to [0, stock], dropping the line when that is 0. */
  lemma UpdateSetsClamped(state: Cart, k: int, quantity: int)
    requires Valid(state) && 0 <= k < |state.items|
    ensures var item := state.items[k];
      var clamped := Max(0, Min(quantity, item.product.stockQuantity));
      var r := CartReducer(state, UpdateQuantity(item.product.id, quantity));
      && (clamped > 0 ==> r.items == state.items[k := item.(quantity := clamped)])
      && (clamped == 0 ==> r.items == state.items[..k] + state.items[k + 1..])
  {
    var item := state.items[k];
    var mapped := MapWhere(state.items, item.product.id, Clamped(quantity));
    MapWhereAt(state.items, k, Clamped(quantity));
    if Clamped(quantity)(item) > 0 {
      FilterKeepsAll(mapped, PositiveQuantity());
    } else {
      FilterDropsOne(mapped, k, PositiveQuantity());
      assert mapped[..k] == state.items[..k];
      assert mapped[k + 1..] == state.items[k + 1..];
    }
  }

  /** UPDATE_QUANTITY for a product that is not in the cart changes no quantity:
      every remaining line is an unchanged line of the old cart. */
  lemma UpdateAbsentChangesNothing(state: Cart, id: string, quantity: int)
    requires !HasProduct(state.items, id)
    ensures var r := CartReducer(state, UpdateQuantity(id, quantity));
      && (forall it :: it in r.items ==> it in state.items)
      && (Valid(state) ==> r.items == state.items)
  {
    var mapped := MapWhere(state.items, id, Clamped(quantity));
    assert mapped == state.items;
    forall it: CartItem {
      FilterMembers(mapped, PositiveQuantity(), it);
    }
    if Valid(state) {
      FilterKeepsAll(state.items, PositiveQuantity());
    }
  }

  /** CLEAR_CART empties the cart and zeroes both totals. */
  lemma ClearEmpties(state: Cart)
    ensures CartReducer(state, ClearCart) == Cart([], 0, 0)
    ensures Valid(CartReducer(state, ClearCart))
  {
  }

  /** Every action leaves totals that equal the sums over the lines. */
  lemma TotalsMatchLines(state: Cart, action: CartAction)
    ensures var r := CartReducer(state, action);
      r.totalAmount == Sum(r.items, LineAmount) && r.totalQuantity == Sum(r.items, LineQuantity)
  {
  }

  lemma LinesWithinStockCut(items: seq<CartItem>, k: int)
    requires LinesWithinStock(items) && 0 <= k < |items|
    ensures LinesWithinStock(items[..k] + items[k + 1..])
  {
    var r := items[..k] + items[k + 1..];
    assert forall i :: 0 <= i < |r| ==> r[i] == items[if i < k then i else i + 1];
  }

  lemma LinesWithinStockSet(items: seq<CartItem>, k: int, quantity: int)
    requires LinesWithinStock(items) && 0 <= k < |items|
    requires 1 <= quantity <= items[k].product.stockQuantity
    ensures LinesWithinStock(items[k := items[k].(quantity := quantity)])
  {
    var r := items[k := items[k].(quantity := quantity)];
    assert forall i :: 0 <= i < |r| ==> r[i].product == items[i].product;
  }

  /** REMOVE_FROM_CART keeps a valid cart valid. */
  lemma RemovePreservesValid(state: Cart, id: string)
    requires Valid(state)
    ensures Valid(CartReducer(state, RemoveFromCart(id)))
  {
    var f := Find(state.items, id);
    if f.None? {
      RemoveAbsentIsIdentity(state, id);
    } else {
      var k :| 0 <= k < |state.items| && state.items[k] == f.value && f.value.product.id == id;
      RemoveCutsLine(state, k);
      LinesWithinStockCut(state.items, k);
    }
  }

  /** UPDATE_QUANTITY keeps a valid cart valid, whatever quantity is requested. */
  lemma UpdatePreservesValid(state: Cart, id: string, quantity: int)
    requires Valid(state)
    ensures Valid(CartReducer(state, UpdateQuantity(id, quantity)))
  {
    var r := CartReducer(state, UpdateQuantity(id, quantity));
    TotalsMatchLines(state, UpdateQuantity(id, quantity));
    var f := Find(state.items, id);
    if f.None? {
      UpdateAbsentChangesNothing(state, id, quantity);
    } else {
      var k :| 0 <= k < |state.items| && state.items[k] == f.value && f.value.product.id == id;
      var item := state.items[k];
      var clamped := Max(0, Min(quantity, item.product.stockQuantity));
      UpdateSetsClamped(state, k, quantity);
      if clamped > 0 {
        LinesWithinStockSet(state.items, k, clamped);
      } else {
        LinesWithinStockCut(state.items, k);
      }
    }
    assert LinesWithinStock(r.items);
  }

  /** ADD_TO_CART of a product in stock and not yet in the cart keeps a valid cart valid. */
  lemma AddNewPreservesValid(state: Cart, p: Product)
    requires Valid(state) && !HasProduct(state.items, p.id) && p.stockQuantity >= 1
    ensures Valid(CartReducer(state, AddToCart(p)))
  {
    AddNewAppends(state, p);
    AddKeepsIdsUnique(state, p);
  }
}
