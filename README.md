# Vending-machine storefront, modelled in Dafny

This project models the client logic of a vending-machine storefront written in
TypeScript and React. The model covers:

- the cart store and its reducer, with the derived totals;
- the machine-lock session store: its reducer, and the acquire, release,
  status-check and clear-error operations;
- the lock client, and the HTTP client whose classification of responses it
  relies on;
- the product queries: query strings, URLs and response handling;
- the payment screen and the coin picker: inserted-coin arithmetic, change, and
  the pay handler;
- the decision rules of the cart page, the cart line, the product tile, the
  catalog page and the price filter;
- the page state machine of the application shell.

The model follows the program's structure, one module per source file:

- `CartContext`, `VendingMachineContext` and `VendingMachineService`;
- `ApiClient` and `Products`;
- `Payment` and `CoinSelector`;
- `CartComponent`, `CartItemComponent`, `ProductCardComponent`,
  `ProductCatalogComponent` and `PriceFilterComponent`;
- `App`.

`ProductTypes` and `Coins` hold the shared records, and the coin map is an entry
list with one entry per denomination. `Wrappers` and `Text` are small helpers:
Option and Result, and decimal rendering of integers.

Code that is pure expressions becomes datatypes and functions, and the lemmas
beside them say what those functions mean. Code that updates state step by step
becomes a class whose methods update fields. The lock store, the payment form,
the catalog page and the application shell are modelled that way. Each such
method's `ensures` ties the new state to the old one, or to a specification
function whose properties are proved as lemmas.

Outside calls are inputs to the operation that awaits them. This covers `fetch`,
`createOrder`, `getBrands` and the lock client. A network exchange is a
`Reply`/`Exchange` value. An awaited call that settled is a `Result`. A thrown
JavaScript error is `Error(message)`. The clock reading stored by STATUS_UPDATED
is the parameter `now`. Money, prices and counts are integers.

The lock store's operations behave as follows, and the model keeps each
behaviour:

- Concurrent acquires are not coalesced: each acquire dispatches its own
  sequence (src/services/VendingMachineContext.tsx:96-98).
- A failed release dispatches nothing, so `isLocked` keeps its value
  (src/services/VendingMachineContext.tsx:119-126).
- A denied or failed acquire does not reset `isLocked`
  (src/services/VendingMachineContext.tsx:100-116).
- `checkStatus` lets a failed status call reach its caller
  (src/services/VendingMachineContext.tsx:128-132). Only the polling timer
  swallows it.

## Model

| member | source | states |
|---|---|---|
| CartContext.CartReducer | src/context/CartContext.tsx:21-60 | definition of the reducer; see AddExistingBumpsQuantity, AddNewAppends, RemoveCutsLine, UpdateSetsClamped, ClearEmpties, TotalsMatchLines |
| CartContext.Find | src/context/CartContext.tsx:24 | `find` returns the first line of the product, and nothing exactly when the product is absent |
| CartContext.CalculateCart | src/context/CartContext.tsx:62-67 | keeps the items; the money total is Σ price × quantity and the unit total is Σ quantity |
| CartContext.FoldIsSum | src/context/CartContext.tsx:63-64 | the `reduce` left fold from an accumulator equals the accumulator plus the reference sum |
| CartContext.AddExistingBumpsQuantity | src/context/CartContext.tsx:24-32 | adding a product already in the cart sets its line to min(quantity + 1, stock) and leaves every other line and the order as they were |
| CartContext.AddExistingTotals | src/context/CartContext.tsx:24-32 | with unique ids, both totals move by exactly that line's change |
| CartContext.AddNewAppends | src/context/CartContext.tsx:33-36 | a new product is appended with quantity 1, without a stock check, and the totals grow by one unit and its price |
| CartContext.AddKeepsIdsUnique | src/context/CartContext.tsx:24-36 | adding never creates a second line for the same product |
| CartContext.RemoveKeepsOthers | src/context/CartContext.tsx:39-42 | the lines kept are exactly the old lines of other products |
| CartContext.RemoveCutsLine | src/context/CartContext.tsx:39-42 | with unique ids, removal cuts out that one line, keeps the rest in order, and lowers both totals by the line |
| CartContext.RemoveAbsentIsIdentity | src/context/CartContext.tsx:39-42 | removing an absent product leaves the lines unchanged |
| CartContext.UpdateLeavesPositive | src/context/CartContext.tsx:44-51 | after a quantity update every remaining line has quantity > 0 |
| CartContext.UpdateSetsClamped | src/context/CartContext.tsx:44-51 | on a valid cart the target line gets the request clamped to [0, stock], and the line is dropped when that is 0 |
| CartContext.UpdateAbsentChangesNothing | src/context/CartContext.tsx:44-51 | updating an absent product changes no line; a valid cart comes back unchanged |
| CartContext.ClearEmpties | src/context/CartContext.tsx:53-55 | clearing yields no lines and both totals 0 |
| CartContext.TotalsMatchLines | src/context/CartContext.tsx:62-67 | after every action the totals equal the sums over the lines |
| CartContext.RemovePreservesValid | src/context/CartContext.tsx:39-42 | removal keeps the cart invariant: unique ids, 1 ≤ quantity ≤ stock, and matching totals |
| CartContext.UpdatePreservesValid | src/context/CartContext.tsx:44-51 | a quantity update keeps the cart invariant, whatever quantity is requested |
| CartContext.AddNewPreservesValid | src/context/CartContext.tsx:33-36 | adding a new product in stock keeps the cart invariant |
| VendingMachineContext.InitialStateIsIdle | src/services/VendingMachineContext.tsx:29-35 | the session starts unlocked, free, idle, without error and with lastStatusCheck 0 |
| VendingMachineContext.Reduce | src/services/VendingMachineContext.tsx:37-61 | definition of the reducer; see ActionEffects, ClearErrorIdempotent |
| VendingMachineContext.ActionEffects | src/services/VendingMachineContext.tsx:37-61 | what each of the six actions sets, with every other field unchanged; only LOCK_ACQUIRED and LOCK_RELEASED move the lock flag, only STATUS_UPDATED the check time |
| VendingMachineContext.AcquireDispatches | src/services/VendingMachineContext.tsx:96-117 | definition of the as-written acquire sequence; see AcquireAsWrittenNeverLocks |
| VendingMachineContext.ReleaseDispatches | src/services/VendingMachineContext.tsx:119-126 | definition of the release sequence; see ReleaseOutcomes |
| VendingMachineContext.StatusDispatches | src/services/VendingMachineContext.tsx:128-132 | definition of the status sequence; see StatusOutcomes |
| VendingMachineContext.ClearErrorIdempotent | src/services/VendingMachineContext.tsx:56-57 | CLEAR_ERROR is idempotent and a no-op without an error |
| VendingMachineContext.VendingMachineProvider.constructor | src/services/VendingMachineContext.tsx:76-79 | the provider's state starts as the initial state |
| VendingMachineContext.VendingMachineProvider.Dispatch | src/services/VendingMachineContext.tsx:76-79 | dispatch replaces the state by the reducer's result |
| VendingMachineContext.VendingMachineProvider.AcquireLock | src/services/VendingMachineContext.tsx:96-117 | as written: the four dispatches run in order; the result is false on every path; loading ends off; the lock flag is unchanged; the error is the busy message for any resolved call and the failure message for a thrown one |
| VendingMachineContext.AcquireAsWrittenNeverLocks | src/services/VendingMachineContext.tsx:96-117 | as written, no service outcome locks the machine, and every path ends with loading off |
| VendingMachineContext.AcquireSuccessIgnored | src/services/VendingMachineContext.tsx:100-110 | a granted lock (the service resolves true) still leaves the session unlocked with the busy error |
| VendingMachineContext.VendingMachineProvider.AcquireLockCorrected | src/services/VendingMachineContext.tsx:96-117 | with the check corrected: returns true exactly when the service grants the lock; the lock flag is set only then; the error is cleared, busy or failed accordingly; loading ends off |
| VendingMachineContext.IntendedAcquireOutcomes | src/services/VendingMachineContext.tsx:96-117 | for the corrected sequence: locked exactly on a grant, the busy message on a denial, the failure message on an exception, loading off on every path |
| VendingMachineContext.VendingMachineProvider.ReleaseLock | src/services/VendingMachineContext.tsx:119-126 | a successful release clears the lock flag and the error; a failed one changes nothing and is not propagated |
| VendingMachineContext.ReleaseOutcomes | src/services/VendingMachineContext.tsx:119-126 | a failed release keeps the whole state; a successful one changes only the lock flag and the error |
| VendingMachineContext.VendingMachineProvider.CheckStatus | src/services/VendingMachineContext.tsx:128-132 | a successful check records the occupancy and the time of the check and returns the status; a failure propagates with the state unchanged |
| VendingMachineContext.StatusOutcomes | src/services/VendingMachineContext.tsx:46-51 | STATUS_UPDATED changes only the occupancy and lastStatusCheck |
| VendingMachineContext.VendingMachineProvider.ClearError | src/services/VendingMachineContext.tsx:134-136 | clearError removes the error and nothing else |
| ApiClient.ComposeHeaders | src/api/apiClient.ts:26-29 | definition; see RequestCredentialsAndHeaders |
| ApiClient.Prepare | src/api/apiClient.ts:20-31 | definition; see RequestCredentialsAndHeaders, BodyOnlyWithData |
| ApiClient.Classify | src/api/apiClient.ts:33-44 | definition; see LockedStatusIsBusy, OtherStatusCarriesCode, PayloadFailureMessage, ClassifySucceeds, BusyErrorSources |
| ApiClient.GetAssetUrl | src/api/apiClient.ts:10-14 | the path comes back unchanged on both branches |
| ApiClient.RequestCredentialsAndHeaders | src/api/apiClient.ts:20-31 | the URL is base + endpoint; credentials are "include"; Content-Type is JSON unless the caller sets it; caller headers are all kept and win |
| ApiClient.BodyOnlyWithData | src/api/apiClient.ts:47-69 | post and put send a body exactly when data is given; get and delete never send one |
| ApiClient.LockedStatusIsBusy | src/api/apiClient.ts:33-35 | status 423 becomes MACHINE_BUSY, whatever the payload |
| ApiClient.OtherStatusCarriesCode | src/api/apiClient.ts:36-38 | any other non-OK status throws an error with that status code, and different codes give different messages |
| ApiClient.PayloadFailureMessage | src/api/apiClient.ts:40-43 | an OK response with a failed payload throws the payload's message, or "API error" when it is empty |
| ApiClient.ClassifySucceeds | src/api/apiClient.ts:40-44 | a value is returned exactly for an OK status with a successful payload, and it is the payload's data |
| ApiClient.BusyErrorSources | src/api/apiClient.ts:33-43 | the busy error comes exactly from a 423, from a failed payload carrying that message, or from a rejection carrying it; an HTTP-status error never equals it |
| VendingMachineService.AcquireLock | src/services/VendingMachineService.ts:8-18 | an error that escapes acquireLock is never the busy error |
| VendingMachineService.AcquireOutcomes | src/services/VendingMachineService.ts:8-18 | true exactly when the POST succeeds, false exactly on the busy error, and any other error is rethrown unchanged |
| VendingMachineService.AcquireLockedIsFalse | src/services/VendingMachineService.ts:12-14 | a 423 answer to the acquire POST resolves to false |
| VendingMachineService.AcquireFalseExactlyWhenBusy | src/services/VendingMachineService.ts:12-14 | false exactly for a 423, or for a busy message from the payload or from fetch |
| VendingMachineService.ReleaseLock | src/services/VendingMachineService.ts:20-22 | definition; see ReleaseAndStatusPropagate |
| VendingMachineService.GetStatus | src/services/VendingMachineService.ts:24-26 | definition; see ReleaseAndStatusPropagate |
| VendingMachineService.ReleaseAndStatusPropagate | src/services/VendingMachineService.ts:20-26 | release and status failures reach the caller unchanged |
| VendingMachineService.LockRequests | src/services/VendingMachineService.ts:8-26 | acquire and release are bodiless POSTs and status is a GET, all sent with credentials |
| Coins.Get | src/components/CoinSelector/CoinSelector.tsx:14 | `coins[d]`: nothing exactly when no entry has the key, otherwise the count of an entry for it |
| Coins.GetOfEntry | src/components/CoinSelector/CoinSelector.tsx:14 | with one entry per denomination, `coins[d]` is the count stored for d |
| Coins.CountOf | src/components/CoinSelector/CoinSelector.tsx:14 | definition (`coins[d] || 0`); see GetOfEntry, CountNonNegative |
| Coins.CountNonNegative | src/components/CoinSelector/CoinSelector.tsx:14 | with no negative count stored, the count read is not negative |
| Coins.Put | src/components/Payment/Payment.tsx:28-33 | the spread update stores the new count for the denomination and leaves every other denomination's entry as it was |
| Coins.PutEntries | src/components/Payment/Payment.tsx:28-33 | every entry afterwards is an old entry or the new one |
| Coins.PutKeepsKeysDistinct | src/components/Payment/Payment.tsx:28-33 | the update never creates a second entry for a denomination |
| Coins.PutKeepsInvariants | src/components/Payment/Payment.tsx:28-33 | storing a non-negative count keeps all counts non-negative, and an offered denomination keeps the keys offered |
| CoinSelector.OfferedDenominations | src/components/CoinSelector/CoinSelector.tsx:10 | exactly 1, 2, 5 and 10 are offered, each once, in increasing order |
| CoinSelector.HandleIncrease | src/components/CoinSelector/CoinSelector.tsx:13-16 | plus asks for one coin more than the current count, a missing entry counting as 0 |
| CoinSelector.IncreaseAddsOne | src/components/CoinSelector/CoinSelector.tsx:13-16 | applied, plus raises that denomination's count by one and leaves the others alone |
| CoinSelector.HandleDecrease | src/components/CoinSelector/CoinSelector.tsx:18-23 | minus acts exactly when the count is above 0, and then asks for one fewer, never below 0 |
| CoinSelector.HandleInput | src/components/CoinSelector/CoinSelector.tsx:25-30 | a typed value is forwarded exactly when it parses to an integer ≥ 0 |
| CoinSelector.InputStoresTypedCount | src/components/CoinSelector/CoinSelector.tsx:25-30 | a rejected value changes nothing; an accepted one is then the displayed count |
| CoinSelector.DecreaseDisabledExactlyWhenIdle | src/components/CoinSelector/CoinSelector.tsx:44 | with non-negative counts, minus is disabled (count 0 or missing) exactly when pressing it would do nothing |
| CoinSelector.CoinTotal | src/components/CoinSelector/CoinSelector.tsx:66 | the row total is the count read for the denomination times the denomination, and 0 for a missing entry |
| CoinSelector.CoinTotalOfEntry | src/components/CoinSelector/CoinSelector.tsx:66 | with one entry per denomination, a stored entry's row shows its count times its denomination |
| CoinSelector.DecreaseDisabled | src/components/CoinSelector/CoinSelector.tsx:44 | definition; see DecreaseDisabledExactlyWhenIdle |
| CoinSelector.HandlersKeepInvariants | src/components/CoinSelector/CoinSelector.tsx:13-30 | whatever the user does, counts stay ≥ 0 and only offered denominations are stored |
| Payment.TotalInserted | src/components/Payment/Payment.tsx:20-23 | definition; see TotalMatchesCoinRows, TotalIsRowSum, TotalAfterPut |
| Payment.IsEnoughMoney | src/components/Payment/Payment.tsx:25 | definition; see ChangeShownExactly, PayEnabledExactly |
| Payment.Change | src/components/Payment/Payment.tsx:26 | definition; see ChangeShownExactly |
| Payment.ShowsChange | src/components/Payment/Payment.tsx:103 | definition; see ChangeShownExactly |
| Payment.PayDisabled | src/components/Payment/Payment.tsx:120 | definition; see PayEnabledExactly |
| Payment.PayButtonLabel | src/components/Payment/Payment.tsx:122 | definition; see PayEnabledExactly |
| Payment.TotalMatchesCoinRows | src/components/Payment/Payment.tsx:20-23 | with offered denominations, the total inserted is 1·c1 + 2·c2 + 5·c5 + 10·c10 |
| Payment.TotalIsRowSum | src/components/Payment/Payment.tsx:20-23 | with distinct, allowed keys the total equals the sum of the coin picker's row totals |
| Payment.TotalAfterPut | src/components/Payment/Payment.tsx:20-33 | a coin change moves the total by (new count − old count) × denomination |
| Payment.ApplyMovesTotal | src/components/Payment/Payment.tsx:20-33 | a coin change that moves a denomination's count by delta moves the total by delta coins of that denomination |
| Payment.CoinStepsMoveTotal | src/components/Payment/Payment.tsx:20-23 | plus adds one coin's worth to the total; a minus that acts removes one |
| Payment.ChangeShownExactly | src/components/Payment/Payment.tsx:103 | the change row appears exactly when more than the amount was inserted; enough money means change ≥ 0; total = amount + change |
| Payment.PayEnabledExactly | src/components/Payment/Payment.tsx:120-122 | pay is enabled exactly when the money suffices and nothing is processing, and it then reads "Оплатить" |
| Payment.OrderLines | src/components/Payment/Payment.tsx:44-50 | one order line per cart line, in cart order, carrying (productId, quantity) |
| Payment.OrderFollowsCart | src/components/Payment/Payment.tsx:44-50 | one more cart line adds its order line at the end |
| Payment.PaymentForm.constructor | src/components/Payment/Payment.tsx:17-18 | the screen opens with no coins and nothing processing |
| Payment.PaymentForm.HandleCoinChange | src/components/Payment/Payment.tsx:28-33 | the denomination gets the new count; the other denominations, the cart and the processing flag are unchanged |
| Payment.PaymentForm.HandlePayment | src/components/Payment/Payment.tsx:35-61 | short of money: the shortage message, no order, cart kept. Otherwise: the order lists the cart lines and the coins. Success clears the cart and passes the result message; failure keeps the cart and passes the error's message or "Ошибка оплаты". Processing ends false; the coins are never reset |
| CartComponent.Render | src/components/Cart/Cart.tsx:14-110 | the empty notice exactly for an empty cart; otherwise one row per line in order, with line price = price × quantity and minus disabled exactly at quantity ≤ 1 |
| CartComponent.HandleIncrease | src/components/Cart/Cart.tsx:26-31 | dispatches quantity + 1 for the line found, and nothing for an absent id |
| CartComponent.HandleDecrease | src/components/Cart/Cart.tsx:33-38 | dispatches quantity − 1 exactly when the line is found with quantity > 1 |
| CartComponent.HandleRemove | src/components/Cart/Cart.tsx:115 | remove passes the row's own product id |
| CartComponent.DecreaseDisabledExactlyWhenIdle | src/components/Cart/Cart.tsx:80 | on a valid cart, minus is disabled exactly when pressing it would dispatch nothing |
| CartComponent.DecreaseKeepsLine | src/components/Cart/Cart.tsx:33-38 | minus never takes a line below 1: the line keeps its place with one unit fewer, and the cart stays valid |
| CartComponent.IncreaseIsUpdate | src/components/Cart/Cart.tsx:26-31 | plus on a line dispatches the reducer's quantity update for one more unit |
| CartComponent.IncreaseCappedByStock | src/components/Cart/Cart.tsx:26-31 | plus sets the line to min(quantity + 1, stock) and leaves every other line in place |
| CartComponent.IncreaseKeepsValid | src/components/Cart/Cart.tsx:26-31 | plus keeps a valid cart valid |
| CartComponent.AbsentProductIgnored | src/components/Cart/Cart.tsx:26-38 | both steppers do nothing for a product not in the cart |
| CartItemComponent.HandleQuantityChange | src/components/CartItem/CartItem.tsx:14-19 | a typed quantity is forwarded exactly when it parses to an integer ≥ 0, zero included |
| CartItemComponent.TypingZeroRemoves | src/components/CartItem/CartItem.tsx:14-19 | typing 0 removes the line, keeps the rest in order and lowers the total by the line's price |
| CartItemComponent.TypedQuantityClamped | src/components/CartItem/CartItem.tsx:14-19 | a positive typed quantity is stored clamped to the stock |
| CartItemComponent.HandleIncrease | src/components/CartItem/CartItem.tsx:21-23 | plus forwards quantity + 1 with no cap of its own |
| CartItemComponent.IncreaseWithinStock | src/components/CartItem/CartItem.tsx:21-23 | while plus is enabled (quantity < stock) it adds exactly one unit; when disabled the line is at its stock and the reducer leaves it there |
| CartItemComponent.HandleDecrease | src/components/CartItem/CartItem.tsx:25-29 | minus forwards quantity − 1 exactly when quantity > 1 |
| CartItemComponent.DecreaseKeepsLine | src/components/CartItem/CartItem.tsx:25-29 | minus is disabled exactly when it would dispatch nothing, and otherwise keeps the line with one unit fewer |
| CartItemComponent.HandleRemove | src/components/CartItem/CartItem.tsx:31-33 | remove dispatches the line's own product id |
| CartItemComponent.DecreaseDisabled | src/components/CartItem/CartItem.tsx:49 | definition; see DecreaseKeepsLine |
| CartItemComponent.IncreaseDisabled | src/components/CartItem/CartItem.tsx:66 | definition; see IncreaseWithinStock |
| CartItemComponent.TotalPrice | src/components/CartItem/CartItem.tsx:35 | the line total is the line amount the cart totals sum |
| ProductCardComponent.SomeHasId | src/components/ProductCard/ProductCard.tsx:14 | `some` holds exactly when a cart line has the product's id |
| ProductCardComponent.IsInCart | src/components/ProductCard/ProductCard.tsx:14 | definition; see SomeHasId, ButtonPrecedence |
| ProductCardComponent.IsOutOfStock | src/components/ProductCard/ProductCard.tsx:15 | definition; see ButtonPrecedence |
| ProductCardComponent.ButtonFor | src/components/ProductCard/ProductCard.tsx:23-34 | definition; see ButtonPrecedence, ClickAddsExactlyWhenChoosable |
| ProductCardComponent.ButtonDisabled | src/components/ProductCard/ProductCard.tsx:51 | definition; see ButtonPrecedence |
| ProductCardComponent.HandleAddToCart | src/components/ProductCard/ProductCard.tsx:17-21 | a click adds the product exactly when it is in stock and not yet in the cart |
| ProductCardComponent.ButtonPrecedence | src/components/ProductCard/ProductCard.tsx:23-51 | sold out wins over chosen, which wins over the default, for the class (`--disabled`, `--selected`, `--default`) and for the label; the button is disabled exactly when sold out |
| ProductCardComponent.ClickAddsExactlyWhenChoosable | src/components/ProductCard/ProductCard.tsx:17-34 | a click adds something exactly when the button reads "Выбрать" |
| ProductCardComponent.SecondClickIsNoOp | src/components/ProductCard/ProductCard.tsx:17-21 | after one click the product is in the cart, a second click changes nothing, and the button reads "Выбрано" |
| ProductCardComponent.ClickPreservesValid | src/components/ProductCard/ProductCard.tsx:17-21 | a click keeps a valid cart valid |
| App.Step | src/App.tsx:16-53 | definition of the state setters; see StepsFollowEdges, PaymentOutcomes |
| App.Offered | src/App.tsx:26-56 | definition of the callbacks the shell wires to each screen; see StepsFollowEdges, EdgesAreReachable |
| App.Invoked | src/components/ProductCatalog/ProductCatalog.tsx:110-116 | definition: the wired callbacks minus the catalog's, which the catalog never calls; see CatalogNeverLeftAsWritten |
| App.Render | src/App.tsx:26-56 | the error screen exactly when an error is held on the payment page; otherwise the current page's screen |
| App.AppState.constructor | src/App.tsx:12-14 | the shell starts on the catalog with both messages empty |
| App.AppState.HandlePaymentSuccess | src/App.tsx:16-20 | stores the message, clears the error and moves to the result page |
| App.AppState.HandlePaymentError | src/App.tsx:22-24 | sets only the error; the page and the result message are unchanged |
| App.AppState.Retry | src/App.tsx:32 | retry clears the error and nothing else |
| App.AppState.CatalogCheckout | src/App.tsx:38 | the catalog's checkout moves to the cart |
| App.AppState.CartCheckout | src/App.tsx:40 | the cart's checkout moves to payment |
| App.AppState.PaymentBack | src/App.tsx:46 | payment's back moves to the cart |
| App.AppState.BackToCatalog | src/App.tsx:53 | the result page's back moves to the catalog |
| App.InitialIsCatalog | src/App.tsx:12-14 | the first screen is the catalog, with no error held |
| App.StepsFollowEdges | src/App.tsx:36-56 | every offered callback keeps the page or follows catalog→cart, cart→payment, payment→cart, payment→result or result→catalog |
| App.EdgesAreReachable | src/App.tsx:36-56 | each of those edges is taken by some callback offered on its source page |
| App.ErrorStaysOnPayment | src/App.tsx:16-35 | offered callbacks keep any error on the payment page, so the error screen shows exactly when an error is held |
| App.CatalogNeverLeftAsWritten | src/components/ProductCatalog/ProductCatalog.tsx:110-116 | as written, no sequence of events the components fire leads away from the first view: the catalog is the only page ever shown |
| App.IntendedReachesEveryPage | src/App.tsx:36-56 | with the catalog calling `onCheckout`, the cart, payment and result pages are each reached from the first view by wired events |
| App.PaymentOutcomes | src/App.tsx:16-35 | success shows the result with its message; a non-empty error shows the error screen; retry brings payment back |
| Products.QueryFor | src/api/products.ts:6-10 | definition of the query a filter yields; see BuildQuery, QueryLookups, QueryOrder, QueryDeterminesFilter |
| Products.BuildQuery | src/api/products.ts:6-10 | the appends build exactly the filter's query |
| Products.QueryLookups | src/api/products.ts:8-10 | brandId is present exactly when truthy; minPrice and maxPrice are present exactly when defined, 0 included, each with its value |
| Products.QueryOrder | src/api/products.ts:8-10 | at most three parameters, in the order brandId, minPrice, maxPrice |
| Products.QueryDeterminesFilter | src/api/products.ts:8-10 | filters with the same query have the same bounds and the same truthy brand |
| Products.Serialize | src/api/products.ts:12 | the serialised query is empty exactly when there is no parameter |
| Products.ClassifyProducts | src/api/products.ts:15-28 | definition; see ProductsBusyFirst, ProductsOutcome |
| Products.ClassifyPriceRange | src/api/products.ts:35-44 | definition; see PriceRangeOutcome |
| Products.ProductsUrl | src/api/products.ts:12 | the bare path exactly when no parameter was appended, otherwise path + "?" + the query |
| Products.NoFilterBarePath | src/api/products.ts:6-12 | the empty filter fetches the bare path |
| Products.ProductsBusyFirst | src/api/products.ts:15-17 | a 423 is the busy error before the body is read |
| Products.ProductsOutcome | src/api/products.ts:15-25 | products are returned exactly for a non-423 reply whose body has success and data; a failed body throws its message or the default |
| Products.PriceRangeUrl | src/api/products.ts:33-34 | ?brandId= and the id are added exactly for a truthy id |
| Products.PriceRangeOutcome | src/api/products.ts:35-44 | a range is returned for any status once success and data are present; every other reply is the one fixed error |
| ProductCatalogComponent.CatalogState.CheckoutLocked | src/components/ProductCatalog/ProductCatalog.tsx:20 | definition: the count is 0, so `disabled={selectedCount === 0}` holds; established by the constructor and kept by every method |
| ProductCatalogComponent.BrandChanged | src/components/ProductCatalog/ProductCatalog.tsx:77-82 | definition; see BrandSelectionRoundTrip, BrandReachesQuery |
| ProductCatalogComponent.PriceChanged | src/components/ProductCatalog/ProductCatalog.tsx:89-95 | definition; see PriceSelectionRoundTrip |
| ProductCatalogComponent.SelectedBrand | src/components/ProductCatalog/ProductCatalog.tsx:76 | definition; see BrandSelectionRoundTrip, DefaultSelections |
| ProductCatalogComponent.SelectedMin | src/components/ProductCatalog/ProductCatalog.tsx:87 | definition; see PriceSelectionRoundTrip, DefaultSelections |
| ProductCatalogComponent.SelectedMax | src/components/ProductCatalog/ProductCatalog.tsx:88 | definition; see PriceSelectionRoundTrip, DefaultSelections |
| ProductCatalogComponent.ShowsErrorScreen | src/components/ProductCatalog/ProductCatalog.tsx:55-65 | definition; see CatalogState.LoadProducts, CatalogState.LoadBrandsAndRange |
| ProductCatalogComponent.CheckoutDisabled | src/components/ProductCatalog/ProductCatalog.tsx:112 | definition; see CatalogState.CheckoutLocked |
| ProductCatalogComponent.BrandOptions | src/components/ProductCatalog/ProductCatalog.tsx:28 | "Все бренды" with the empty id comes first, then the fetched brands in order |
| ProductCatalogComponent.CatalogState.constructor | src/components/ProductCatalog/ProductCatalog.tsx:14-20 | the catalog starts empty, with range 0–0, the empty filter, no error (no error screen), not loading, and count 0, so checkout is disabled |
| ProductCatalogComponent.CatalogState.LoadBrandsAndRange | src/components/ProductCatalog/ProductCatalog.tsx:23-35 | brands are prepended and stored, then the unfiltered range is stored; any failure sets "Ошибка загрузки данных" and so shows the error screen; checkout stays disabled |
| ProductCatalogComponent.CatalogState.LoadProducts | src/components/ProductCatalog/ProductCatalog.tsx:38-53 | fetches the filter's URL; stores the products, then the brand's range; any failure sets "Ошибка загрузки товаров"; the error screen shows exactly when one of the two calls failed; loading is false afterwards; checkout stays disabled |
| ProductCatalogComponent.CatalogState.ChangeBrand | src/components/ProductCatalog/ProductCatalog.tsx:77-82 | the filter becomes the brand-changed filter; nothing else changes; checkout stays disabled |
| ProductCatalogComponent.CatalogState.ChangePrice | src/components/ProductCatalog/ProductCatalog.tsx:89-95 | applying the price lambda (which PriceSlider never calls) makes the filter the price-changed filter; nothing else changes; checkout stays disabled |
| ProductCatalogComponent.CatalogState.Retry | src/components/ProductCatalog/ProductCatalog.tsx:60 | retry resets the filter to {}; checkout stays disabled |
| ProductCatalogComponent.BrandSelectionRoundTrip | src/components/ProductCatalog/ProductCatalog.tsx:76-82 | the chosen brand reads back as chosen; the empty id clears it; the bounds are kept |
| ProductCatalogComponent.PriceSelectionRoundTrip | src/components/ProductCatalog/ProductCatalog.tsx:87-95 | after the price lambda (which PriceSlider never calls), the new bounds read back as chosen, and the brand is kept |
| ProductCatalogComponent.DefaultSelections | src/components/ProductCatalog/ProductCatalog.tsx:76-88 | with no filter the brand reads '' and the bounds read the loaded range |
| ProductCatalogComponent.BrandReachesQuery | src/components/ProductCatalog/ProductCatalog.tsx:77-82 | a chosen brand reaches the products query exactly when it is not "all brands" |
| PriceFilterComponent.HandleMinChange | src/components/PriceFilter/PriceFilter.tsx:13-16 | forwards (new value, selected max) |
| PriceFilterComponent.HandleMaxChange | src/components/PriceFilter/PriceFilter.tsx:18-21 | forwards (selected min, new value) |
| PriceFilterComponent.EditsAreIndependent | src/components/PriceFilter/PriceFilter.tsx:13-21 | editing one field never changes what the other field shows |
| PriceFilterComponent.DisplayedMin | src/components/PriceFilter/PriceFilter.tsx:34 | definition; see DisplayFallback |
| PriceFilterComponent.DisplayedMax | src/components/PriceFilter/PriceFilter.tsx:46 | definition; see DisplayFallback |
| PriceFilterComponent.DisplayFallback | src/components/PriceFilter/PriceFilter.tsx:34 | a field shows its selection exactly when present and not 0, otherwise the range bound |

## Left out

- Timers and hooks are not modelled. This covers the 5-second status poll in
  src/services/VendingMachineContext.tsx:82-94, src/hooks/useSessionGuard.ts and
  src/hooks/useMachineStatus.ts. They are about scheduling, teardown and
  interleaved asynchronous work.
- Interleaving is not modelled. Each operation runs to completion with the
  outcome of its awaited call as an input. There is no coalescing of concurrent
  acquires and no monotone clock, and the code has neither.
- `Date.now()` is not modelled. STATUS_UPDATED takes the time as the parameter
  `now`.
- `fetch`, `response.json()`, `JSON.stringify`, cookies and proxying are inputs
  or not modelled.
- ApiClient.Classify has no separate case for `response.json()` failing after
  an OK status. It is covered by the `Rejected` case.
- ApiClient.Classify models the payload's `data` as always present. A successful
  payload without `data` would return `undefined`.
- `parseInt` and `Number` become an optional integer or an integer. NaN,
  fractions and `Number("") = 0` are not modelled separately.
- `URLSearchParams` percent-encoding is not modelled. Products.Serialize joins
  the raw keys and values.
- Prices and money are integers. JavaScript floating point is not modelled.
- The coin entries keep insertion order. JavaScript enumerates integer keys in
  ascending order instead. The sums do not depend on the order. Only the order
  of keys in the order request's JSON would differ.
- Rendering is not modelled: JSX, CSS, icons, the loading text and the product
  grid.
- The presentational components are not modelled: BrandFilter, PriceSlider,
  BusyModal and OrderResult.
- src/utils/formatCurrency.ts, src/types/cart.ts, src/types/api.ts and
  src/types/brand.ts are not part of this model.
- Records keep only the fields the logic reads.
- src/api/orders.ts and src/api/brands.ts are thin fetch wrappers. Their settled
  outcomes are inputs to Payment.PaymentForm.HandlePayment and
  ProductCatalogComponent.CatalogState.LoadBrandsAndRange.
- The Payment screen reads the cart from the cart store. Here the cart is a
  field of the form, and clearCart applies the CLEAR_CART reducer step to it.
- React re-runs the catalog's load effect when the filter changes. Here the
  caller invokes LoadProducts.
- `useCart` and `useVendingMachine` throw when used outside their providers.
  This is not modelled.
- App.tsx passes the Cart page no `onBack`, unlike the component's declared
  props. That back button is not modelled. Only the page transitions are.
- App.Offered / App.EdgesAreReachable: these model the wiring in src/App.tsx.
  ProductCatalog declares no props and never calls `onCheckout`, so the
  program as written never fires catalog→cart. App.Invoked and
  App.CatalogNeverLeftAsWritten state what actually happens; see Findings.
- ProductCatalogComponent.CatalogState.ChangePrice / PriceSelectionRoundTrip:
  these model the `onChange` lambda that the catalog passes to PriceSlider
  (src/components/ProductCatalog/ProductCatalog.tsx:89-95). PriceSlider never
  calls it. It declares no `onChange` prop
  (src/components/PriceSlider/PriceSlider.tsx:4-10). Its input's `onChange`
  calls only `onChangeTemp`, which the catalog does not pass (lines 19-22). On
  mouse-up or touch-end it calls `onFinalChange`, which the catalog does not
  pass either, so that call throws a TypeError (lines 24-29). As written, no
  user event sets `minPrice` or `maxPrice`.
- ProductCardComponent.ClickPreservesValid assumes that the product's stock is
  not negative. With a negative stock the tile would add a line above its
  stock.

## Findings

| source | as written | input that shows it | evidently intended | confidence | as-written member | corrected member |
|---|---|---|---|---|---|---|
| src/services/VendingMachineContext.tsx:101 | `acquireLock` checks `result.success`, but the service resolves to a bare boolean (src/services/VendingMachineService.ts:8-11). `true.success` is `undefined`, so a granted lock takes the busy branch | the service resolves `true` (lock granted): the session stays unlocked with "Автомат занят другим пользователем" and acquireLock returns false | check the boolean itself: LOCK_ACQUIRED and return true when it is true | not executed | VendingMachineContext.AcquireSuccessIgnored | VendingMachineContext.IntendedAcquireOutcomes |
| src/components/ProductCatalog/ProductCatalog.tsx:110-116 | the catalog declares no props (line 13), so the `onCheckout` that src/App.tsx:38 passes is never read; its checkout button's `onClick` is an empty TODO, and the button is always disabled because `setSelectedCount` is never called (line 20) | any run: the first page is the catalog, and no click leaves it, so the cart, payment and result pages are never shown | the catalog takes `onCheckout`, enables checkout when items are chosen, and calls `onCheckout` on click, giving the catalog→cart edge | not executed | App.CatalogNeverLeftAsWritten | App.IntendedReachesEveryPage |
