/** The page state machine of the application shell (src/App.tsx): the
    current page, the last order's message and the payment error, the
    callbacks that change them, and `renderContent`, which picks the screen. */
module App {
  datatype Page = Catalog | CartPage | PaymentPage | Result

  /** The three pieces of state the shell keeps. */
  datatype AppView = AppView(currentPage: Page, resultMessage: string, errorMessage: string)

  /** The screen `renderContent` returns. */
  datatype Screen =
    | ErrorScreen(message: string)
    | CatalogScreen
    | CartScreen
    | PaymentScreen
    | ResultScreen(message: string)

  /** The callbacks the rendered screens can fire. */
  datatype Event =
    | CatalogCheckout                   // the catalog's onCheckout
    | CartCheckout                      // the cart's onCheckout
    | PaymentBack                       // the payment screen's onBack
    | PaymentSucceeded(message: string) // the payment screen's onSuccess
    | PaymentFailed(error: string)      // the payment screen's onError
    | BackToCatalog                     // the result screen's onBackToCatalog
    | RetryPayment                      // the error screen's retry button

  const InitialView := AppView(Catalog, "", "")

  /** `renderContent`: a payment error replaces the payment screen; otherwise
      the current page decides. */
  function Render(v: AppView): (s: Screen)
    ensures s.ErrorScreen? <==> v.errorMessage != "" && v.currentPage == PaymentPage
    ensures s.ErrorScreen? ==> s.message == v.errorMessage
    ensures !s.ErrorScreen? ==> match v.currentPage
      case Catalog => s == CatalogScreen
      case CartPage => s == CartScreen
      case PaymentPage => s == PaymentScreen
      case Result => s == ResultScreen(v.resultMessage)
  {
    if v.errorMessage != "" && v.currentPage == PaymentPage then ErrorScreen(v.errorMessage)
    else match v.currentPage
      case Catalog => CatalogScreen
      case CartPage => CartScreen
      case PaymentPage => PaymentScreen
      case Result => ResultScreen(v.resultMessage)
  }

  /** Which callbacks a screen wires up. */
  predicate Offered(s: Screen, e: Event) {
    match e
    case CatalogCheckout => s == CatalogScreen
    case CartCheckout => s == CartScreen
    case PaymentBack => s == PaymentScreen
    case PaymentSucceeded(_) => s == PaymentScreen
    case PaymentFailed(_) => s == PaymentScreen
    case BackToCatalog => s.ResultScreen?
    case RetryPayment => s.ErrorScreen?
  }

  /** The state setters each callback calls. */
  function Step(v: AppView, e: Event): AppView {
    match e
    case CatalogCheckout => v.(currentPage := CartPage)
    case CartCheckout => v.(currentPage := PaymentPage)
    case PaymentBack => v.(currentPage := CartPage)
    case PaymentSucceeded(message) => AppView(Result, message, "")
    case PaymentFailed(error) => v.(errorMessage := error)
    case BackToCatalog => v.(currentPage := Catalog)
    case RetryPayment => v.(errorMessage := "")
  }

  /** The callbacks the rendered components actually invoke. ProductCatalog
      declares no props and its checkout button's handler is empty, so the
      `onCheckout` the shell hands it is never called. */
  predicate Invoked(s: Screen, e: Event) {
    Offered(s, e) && s != CatalogScreen
  }

  /** The view after the events, one after another. */
  function Run(v: AppView, es: seq<Event>): AppView
    decreases |es|
  {
    if es == [] then v else Run(Step(v, es[0]), es[1..])
  }

  /** Every event is one the screen shown at that moment wires up. */
  predicate OfferedTrace(v: AppView, es: seq<Event>)
    decreases |es|
  {
    es == [] || (Offered(Render(v), es[0]) && OfferedTrace(Step(v, es[0]), es[1..]))
  }

  /** Every event is one the screen shown at that moment actually fires. */
  predicate InvokedTrace(v: AppView, es: seq<Event>)
    decreases |es|
  {
    es == [] || (Invoked(Render(v), es[0]) && InvokedTrace(Step(v, es[0]), es[1..]))
  }

  /** The page changes the user interface allows. */
  predicate Edge(from: Page, to: Page) {
    || (from == Catalog && to == CartPage)
    || (from == CartPage && to == PaymentPage)
    || (from == PaymentPage && to == CartPage)
    || (from == PaymentPage && to == Result)
    || (from == Result && to == Catalog)
  }

  /** A payment error is only ever held while on the payment page. */
  predicate ErrorOnPaymentOnly(v: AppView) {
    v.errorMessage != "" ==> v.currentPage == PaymentPage
  }

  /** The shell's state, updated by its callbacks. */
  class AppState {
    var currentPage: Page
    var resultMessage: string
    var errorMessage: string

    function View(): AppView
      reads this
    {
      AppView(currentPage, resultMessage, errorMessage)
    }

    /** The shell starts on the catalog with both messages empty. */
    constructor()
      ensures View() == InitialView
    {
      currentPage := Catalog;
      resultMessage := "";
      errorMessage := "";
    }

    /** `handlePaymentSuccess`: keep the message, drop any error, show the result. */
    method HandlePaymentSuccess(message: string)
      modifies this
      ensures View() == Step(old(View()), PaymentSucceeded(message))
      ensures currentPage == Result && resultMessage == message && errorMessage == ""
    {
      resultMessage := message;
      errorMessage := "";
      currentPage := Result;
    }

    /** `handlePaymentError`: record the error and stay on the page. */
    method HandlePaymentError(error: string)
      modifies this
      ensures View() == Step(old(View()), PaymentFailed(error))
      ensures errorMessage == error && currentPage == old(currentPage) && resultMessage == old(resultMessage)
    {
      errorMessage := error;
    }

    /** The error screen's "try again" button. */
    method Retry()
      modifies this
      ensures View() == Step(old(View()), RetryPayment)
      ensures errorMessage == "" && currentPage == old(currentPage) && resultMessage == old(resultMessage)
    {
      errorMessage := "";
    }

    /** The catalog's checkout callback. */
    method CatalogCheckout()
      modifies this
      ensures View() == Step(old(View()), Event.CatalogCheckout)
    {
      currentPage := CartPage;
    }

    /** The cart's checkout callback. */
    method CartCheckout()
      modifies this
      ensures View() == Step(old(View()), Event.CartCheckout)
    {
      currentPage := PaymentPage;
    }

    /** The payment screen's back callback. */
    method PaymentBack()
      modifies this
      ensures View() == Step(old(View()), Event.PaymentBack)
    {
      currentPage := CartPage;
    }

    /** The result screen's way back to the catalog. */
    method BackToCatalog()
      modifies this
      ensures View() == Step(old(View()), Event.BackToCatalog)
    {
      currentPage := Catalog;
    }
  }

  // ---------------------------------------------------------------------------
  // Properties
  // ---------------------------------------------------------------------------

  /** The start screen is the catalog, and no error is held. */
  lemma InitialIsCatalog()
    ensures Render(InitialView) == CatalogScreen
    ensures ErrorOnPaymentOnly(InitialView)
  {
  }

  /** Every callback a screen offers either keeps the page or follows one of
      the five edges. */
  lemma StepsFollowEdges(v: AppView, e: Event)
    requires Offered(Render(v), e)
    ensures Step(v, e).currentPage == v.currentPage || Edge(v.currentPage, Step(v, e).currentPage)
  {
  }

  /** Each edge is taken by some callback offered on an error-free screen of
      its source page. */
  lemma EdgesAreReachable(from: Page, to: Page)
    requires Edge(from, to)
    ensures exists e :: Offered(Render(AppView(from, "", "")), e)
                        && Step(AppView(from, "", ""), e).currentPage == to
  {
    var v := AppView(from, "", "");
    if from == Catalog {
      assert Step(v, CatalogCheckout).currentPage == to;
    } else if from == CartPage {
      assert Step(v, CartCheckout).currentPage == to;
    } else if from == Result {
      assert Step(v, BackToCatalog).currentPage == to;
    } else if to == CartPage {
      assert Step(v, PaymentBack).currentPage == to;
    } else {
      assert Step(v, PaymentSucceeded("")).currentPage == to;
    }
  }

  /** Offered callbacks keep the error on the payment page, so the error
      screen is shown exactly when an error is held. */
  lemma ErrorStaysOnPayment(v: AppView, e: Event)
    requires ErrorOnPaymentOnly(v) && Offered(Render(v), e)
    ensures ErrorOnPaymentOnly(Step(v, e))
    ensures Render(Step(v, e)).ErrorScreen? <==> Step(v, e).errorMessage != ""
  {
  }

  /** A payment success shows its message with no error; a failure keeps the
      page and, with a non-empty message, shows the error screen; retrying
      brings the payment screen back. */
  lemma PaymentOutcomes(v: AppView, message: string, error: string)
    requires v.currentPage == PaymentPage
    ensures Render(Step(v, PaymentSucceeded(message))) == ResultScreen(message)
    ensures error != "" ==> Render(Step(v, PaymentFailed(error))) == ErrorScreen(error)
    ensures Render(Step(Step(v, PaymentFailed(error)), RetryPayment)) == PaymentScreen
  {
  }

  /** As written, the program never leaves the catalog: from the first view
      no sequence of events the components fire reaches another page. */
  lemma {:induction false} CatalogNeverLeftAsWritten(es: seq<Event>)
    requires InvokedTrace(InitialView, es)
    ensures Run(InitialView, es) == InitialView
    ensures Render(Run(InitialView, es)) == CatalogScreen
  {
    assert Render(InitialView) == CatalogScreen;
  }

  /** With the catalog calling `onCheckout` as the shell intends, every page
      is reached from the first view by events the screens wire up. */
  lemma IntendedReachesEveryPage()
    ensures exists es :: OfferedTrace(InitialView, es) && Run(InitialView, es).currentPage == CartPage
    ensures exists es :: OfferedTrace(InitialView, es) && Run(InitialView, es).currentPage == PaymentPage
    ensures exists es :: OfferedTrace(InitialView, es) && Run(InitialView, es).currentPage == Result
  {
    var v0 := InitialView;
    var v1 := Step(v0, CatalogCheckout);
    var v2 := Step(v1, CartCheckout);
    var v3 := Step(v2, PaymentSucceeded(""));
    var e3 := [PaymentSucceeded("")];
    var e2 := [CartCheckout] + e3;
    var e1 := [CatalogCheckout] + e2;
    assert OfferedTrace(v3, []) && Run(v3, []) == v3;
    assert e3[1..] == [] && OfferedTrace(v2, e3) && Run(v2, e3) == v3;
    assert e2[1..] == e3 && OfferedTrace(v1, e2) && Run(v1, e2) == v3;
    assert e1[1..] == e2 && OfferedTrace(v0, e1) && Run(v0, e1) == v3;
    assert [CartCheckout][1..] == [] && OfferedTrace(v1, [CartCheckout]) && Run(v1, [CartCheckout]) == v2;
    assert [CatalogCheckout, CartCheckout][1..] == [CartCheckout];
    assert OfferedTrace(v0, [CatalogCheckout, CartCheckout]) && Run(v0, [CatalogCheckout, CartCheckout]) == v2;
    assert [CatalogCheckout][1..] == [] && OfferedTrace(v0, [CatalogCheckout]) && Run(v0, [CatalogCheckout]) == v1;
  }
}
