/** The payment screen (src/components/Payment/Payment.tsx): the inserted
    coins, their total against the cart's amount, the change, and the pay
    handler that sends the order. The order call itself is an input: what
    the awaited `createOrder` promise settled with. */
module Payment {
  import opened Wrappers
  import opened Coins
  import opened CartContext
  import CoinSelector

  const InsufficientFunds := "Недостаточно средств для оплаты"
  const PaymentFailed := "Ошибка оплаты"
  const PayLabel := "Оплатить"
  const ProcessingLabel := "Обработка..."

  /** One line of the order request. */
  datatype OrderLine = OrderLine(productId: string, quantity: int)

  /** `CreateOrderRequest`: the lines and the inserted coins. */
  datatype OrderRequest = OrderRequest(items: seq<OrderLine>, insertedCoins: InsertedCoins)

  /** A value thrown by `createOrder`: an `Error` with its message, or
      something that is not an `Error`. */
  datatype Thrown = AnError(message: string) | NotAnError

  /** How the awaited order call settled: with a result carrying a message,
      or by throwing. */
  datatype OrderOutcome = Created(message: string) | Threw(thrown: Thrown)

  /** The callback `handlePayment` ends with: `onSuccess` or `onError`. */
  datatype Notice = Succeeded(message: string) | Failed(error: string)

  /** `totalInserted`: denomination times count, summed over the entries. */
  function TotalInserted(coins: InsertedCoins): int {
    if coins == [] then 0 else coins[0].0 * coins[0].1 + TotalInserted(coins[1..])
  }

  predicate IsEnoughMoney(coins: InsertedCoins, amount: int) {
    TotalInserted(coins) >= amount
  }

  function Change(coins: InsertedCoins, amount: int): int {
    TotalInserted(coins) - amount
  }

  /** The change row is rendered when `isEnoughMoney && change > 0`. */
  predicate ShowsChange(coins: InsertedCoins, amount: int) {
    IsEnoughMoney(coins, amount) && Change(coins, amount) > 0
  }

  /** `disabled={!isEnoughMoney || processing}`. */
  predicate PayDisabled(coins: InsertedCoins, amount: int, processing: bool) {
    !IsEnoughMoney(coins, amount) || processing
  }

  function PayButtonLabel(processing: bool): string {
    if processing then ProcessingLabel else PayLabel
  }

  /** `cart.items.map(item => ({ productId, quantity }))`. */
  function OrderLines(items: seq<CartItem>): (r: seq<OrderLine>)
    ensures |r| == |items|
    ensures forall i :: 0 <= i < |items| ==>
      r[i].productId == items[i].product.id && r[i].quantity == items[i].quantity
  {
    if items == [] then []
    else [OrderLine(items[0].product.id, items[0].quantity)] + OrderLines(items[1..])
  }

  /** The message passed to `onError` for a thrown value. */
  function ThrownMessage(t: Thrown): string {
    match t
    case AnError(message) => message
    case NotAnError => PaymentFailed
  }

  /** The sum of the row totals shown by the coin picker for `ds`. */
  function RowSum(coins: InsertedCoins, ds: seq<int>): int {
    if ds == [] then 0 else CoinSelector.CoinTotal(coins, ds[0]) + RowSum(coins, ds[1..])
  }

  predicate Distinct(ds: seq<int>) {
    forall i, j :: 0 <= i < j < |ds| ==> ds[i] != ds[j]
  }

  /** The payment screen's own state, plus the cart it reads from the cart
      store and clears through it. */
  class PaymentForm {
    var cart: Cart
    var insertedCoins: InsertedCoins
    var processing: bool

    /** The screen opens with no coins and nothing in progress. */
    constructor(cart: Cart)
      ensures this.cart == cart && insertedCoins == NoCoins && !processing
    {
      this.cart := cart;
      insertedCoins := NoCoins;
      processing := false;
    }

    /** `handleCoinChange`: one denomination gets the new count. */
    method HandleCoinChange(d: int, count: int)
      modifies this
      ensures insertedCoins == Put(old(insertedCoins), d, count)
      ensures CountOf(insertedCoins, d) == count
      ensures forall e :: e != d ==> Get(insertedCoins, e) == Get(old(insertedCoins), e)
      ensures cart == old(cart) && processing == old(processing)
    {
      insertedCoins := Put(insertedCoins, d, count);
    }

    /** `handlePayment`: refuse when the money is short; otherwise send the
        order, clear the cart on success, report the outcome and end with
        `processing` false. The inserted coins are never reset. */
    method HandlePayment(outcome: OrderOutcome) returns (notice: Notice, request: Option<OrderRequest>)
      modifies this
      ensures insertedCoins == old(insertedCoins)
      ensures !IsEnoughMoney(old(insertedCoins), old(cart).totalAmount) ==>
        && notice == Failed(InsufficientFunds) && request == None
        && cart == old(cart) && processing == old(processing)
      ensures IsEnoughMoney(old(insertedCoins), old(cart).totalAmount) ==>
        && request == Some(OrderRequest(OrderLines(old(cart).items), old(insertedCoins)))
        && !processing
        && (outcome.Created? ==> notice == Succeeded(outcome.message)
                                 && cart == CartReducer(old(cart), ClearCart))
        && (outcome.Threw? ==> notice == Failed(ThrownMessage(outcome.thrown)) && cart == old(cart))
    {
      if !IsEnoughMoney(insertedCoins, cart.totalAmount) {
        return Failed(InsufficientFunds), None;
      }
      processing := true;
      var orderData := OrderRequest(OrderLines(cart.items), insertedCoins);
      request := Some(orderData);
      match outcome {
        case Created(message) =>
          cart := CartReducer(cart, ClearCart);
          notice := Succeeded(message);
        case Threw(thrown) =>
          notice := Failed(ThrownMessage(thrown));
      }
      processing := false;
    }
  }

  // ---------------------------------------------------------------------------
  // Properties
  // ---------------------------------------------------------------------------

  /** The change row appears exactly when more was inserted than is owed, and
      whenever the money suffices the change is not negative. */
  lemma ChangeShownExactly(coins: InsertedCoins, amount: int)
    ensures ShowsChange(coins, amount) <==> TotalInserted(coins) > amount
    ensures IsEnoughMoney(coins, amount) <==> Change(coins, amount) >= 0
    ensures TotalInserted(coins) == amount + Change(coins, amount)
  {
  }

  /** Paying is possible exactly when the money suffices and no payment is
      running, and the button then reads "Оплатить". */
  lemma PayEnabledExactly(coins: InsertedCoins, amount: int, processing: bool)
    ensures !PayDisabled(coins, amount, processing) <==> TotalInserted(coins) >= amount && !processing
    ensures !PayDisabled(coins, amount, processing) ==> PayButtonLabel(processing) == PayLabel
  {
  }

  /** Replacing one denomination's count moves the total by the difference,
      times the denomination. */
  lemma {:induction false} TotalAfterPut(coins: InsertedCoins, d: int, count: int)
    requires DistinctKeys(coins)
    ensures TotalInserted(Put(coins, d, count)) == TotalInserted(coins) + d * (count - CountOf(coins, d))
  {
    if coins == [] {
      assert Put(coins, d, count) == [(d, count)];
    } else if coins[0].0 == d {
      TotalAfterPutHead(coins, d, count);
    } else {
      var rest := coins[1..];
      assert DistinctKeys(rest) by {
        assert forall i :: 0 <= i < |rest| ==> rest[i] == coins[i + 1];
      }
      TotalAfterPut(rest, d, count);
      TotalAfterPutTail(coins, d, count);
    }
  }

  /** The head entry is the one replaced. */
  lemma TotalAfterPutHead(coins: InsertedCoins, d: int, count: int)
    requires coins != [] && coins[0].0 == d
    ensures TotalInserted(Put(coins, d, count)) == TotalInserted(coins) + d * (count - CountOf(coins, d))
  {
    var k := coins[0].1;
    assert CountOf(coins, d) == k;
    assert Put(coins, d, count)[1..] == coins[1..];
    assert d * (count - k) == d * count - d * k;
  }

  /** The head entry is kept, so the total moves as it does for the tail. */
  lemma TotalAfterPutTail(coins: InsertedCoins, d: int, count: int)
    requires coins != [] && coins[0].0 != d
    ensures TotalInserted(Put(coins, d, count))
         == coins[0].0 * coins[0].1 + TotalInserted(Put(coins[1..], d, count))
    ensures CountOf(coins, d) == CountOf(coins[1..], d)
  {
    assert Put(coins, d, count)[1..] == Put(coins[1..], d, count);
  }

  /** A plus press adds one coin's worth to the total; a minus press that
      acts takes one coin's worth away. */
  lemma CoinStepsMoveTotal(coins: InsertedCoins, d: int)
    requires DistinctKeys(coins)
    ensures TotalInserted(CoinSelector.Apply(coins, CoinSelector.HandleIncrease(coins, d)))
         == TotalInserted(coins) + d
    ensures CoinSelector.HandleDecrease(coins, d).Some? ==>
      TotalInserted(CoinSelector.Apply(coins, CoinSelector.HandleDecrease(coins, d).value))
         == TotalInserted(coins) - d
  {
    ApplyMovesTotal(coins, CoinSelector.HandleIncrease(coins, d), 1);
    if CoinSelector.HandleDecrease(coins, d).Some? {
      ApplyMovesTotal(coins, CoinSelector.HandleDecrease(coins, d).value, -1);
    }
  }

  /** A coin change that moves a denomination's count by `delta` moves the
      total by `delta` coins of it. */
  lemma ApplyMovesTotal(coins: InsertedCoins, change: CoinSelector.CoinChange, delta: int)
    requires DistinctKeys(coins)
    requires change.count == CountOf(coins, change.denomination) + delta
    ensures TotalInserted(CoinSelector.Apply(coins, change)) == TotalInserted(coins) + change.denomination * delta
  {
    TotalAfterPut(coins, change.denomination, change.count);
  }

  /** Dropping the first entry removes its worth from the row sum of any
      list of distinct denominations that offers it. */
  lemma {:induction false} RowSumWithoutFirst(coins: InsertedCoins, ds: seq<int>)
    requires coins != [] && DistinctKeys(coins) && Distinct(ds)
    ensures RowSum(coins, ds)
         == RowSum(coins[1..], ds) + (if coins[0].0 in ds then coins[0].0 * coins[0].1 else 0)
  {
    if ds != [] {
      var rest := coins[1..];
      assert Distinct(ds[1..]) by {
        assert forall i :: 0 <= i < |ds[1..]| ==> ds[1..][i] == ds[i + 1];
      }
      RowSumWithoutFirst(coins, ds[1..]);
      if ds[0] == coins[0].0 {
        assert forall k :: 0 <= k < |rest| ==> rest[k] == coins[k + 1];
        assert !HasKey(rest, coins[0].0);
        assert coins[0].0 !in ds[1..];
      } else {
        assert CountOf(coins, ds[0]) == CountOf(rest, ds[0]);
        assert coins[0].0 in ds <==> coins[0].0 in ds[1..];
      }
    }
  }

  /** With distinct entries whose denominations are all offered, the total is
      the sum of the row totals over the offered denominations. */
  lemma {:induction false} TotalIsRowSum(coins: InsertedCoins, ds: seq<int>)
    requires DistinctKeys(coins) && KeysWithin(coins, ds) && Distinct(ds)
    ensures TotalInserted(coins) == RowSum(coins, ds)
  {
    if coins == [] {
      RowSumOfNoCoins(ds);
    } else {
      var rest := coins[1..];
      assert forall i :: 0 <= i < |rest| ==> rest[i] == coins[i + 1];
      TotalIsRowSum(rest, ds);
      RowSumWithoutFirst(coins, ds);
      assert coins[0].0 in ds;
    }
  }

  /** With no coins every row shows zero. */
  lemma {:induction false} RowSumOfNoCoins(ds: seq<int>)
    ensures RowSum(NoCoins, ds) == 0
  {
    if ds != [] {
      RowSumOfNoCoins(ds[1..]);
    }
  }

  /** The amount compared with the cart total is what the four coin rows show:
      1, 2, 5 and 10 times their counts. */
  lemma TotalMatchesCoinRows(coins: InsertedCoins)
    requires DistinctKeys(coins) && KeysWithin(coins, CoinSelector.Denominations)
    ensures TotalInserted(coins)
         == CountOf(coins, 1) * 1 + CountOf(coins, 2) * 2 + CountOf(coins, 5) * 5 + CountOf(coins, 10) * 10
  {
    var ds := CoinSelector.Denominations;
    assert Distinct(ds);
    TotalIsRowSum(coins, ds);
    assert ds[1..] == [2, 5, 10] && ds[1..][1..] == [5, 10] && ds[1..][1..][1..] == [10];
    assert RowSum(coins, [10]) == CoinSelector.CoinTotal(coins, 10);
    assert RowSum(coins, [5, 10]) == CoinSelector.CoinTotal(coins, 5) + RowSum(coins, [10]);
    assert RowSum(coins, [2, 5, 10]) == CoinSelector.CoinTotal(coins, 2) + RowSum(coins, [5, 10]);
    assert RowSum(coins, ds) == CoinSelector.CoinTotal(coins, 1) + RowSum(coins, [2, 5, 10]);
  }

  /** The order request lists the cart's lines in cart order, one per line. */
  lemma {:induction false} OrderFollowsCart(items: seq<CartItem>, extra: CartItem)
    ensures OrderLines(items + [extra]) == OrderLines(items) + [OrderLine(extra.product.id, extra.quantity)]
  {
    var l := OrderLines(items + [extra]);
    assert |l| == |items| + 1;
    assert forall i :: 0 <= i < |items| ==> (items + [extra])[i] == items[i];
  }
}
