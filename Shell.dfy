/**
 * The application shell: which page is shown, which overlay is open (cart
 * drawer, sign-in dialog, address form, order confirmation), and how the
 * checkout flow moves between them.
 */
module Shell {
  import opened Options
  import opened Seqs
  import opened CartStore
  import opened Auth
  import opened Orders
  import opened AuthForm
  import opened CartDrawer

  datatype View = Home | Account

  /** What to do once a sign-in started from the checkout succeeds. */
  datatype FollowUp = ReopenCart

  const CheckoutHint := "Please sign in to complete your checkout."

  class AppShell {
    var view: View
    var cartOpen: bool
    var addressOpen: bool
    var placedOrder: Option<Order>
    var authOpen: bool
    var authTab: Tab
    var authHint: string
    var afterLogin: Option<FollowUp>

    /** The home page with every overlay closed. */
    constructor ()
      ensures view == Home && !cartOpen && !addressOpen && placedOrder.None?
      ensures !authOpen && authTab == LoginTab && authHint == "" && afterLogin.None?
    {
      view := Home;
      cartOpen := false;
      addressOpen := false;
      placedOrder := None;
      authOpen := false;
      authTab := LoginTab;
      authHint := "";
      afterLogin := None;
    }

    /** Opens the sign-in dialog; a missing tab means the login tab and a missing hint none. */
    method OpenAuth(tab: Option<Tab>, hint: Option<string>, followUp: Option<FollowUp>)
      modifies this
      ensures authOpen && authTab == tab.GetOr(LoginTab) && authHint == hint.GetOr("") && afterLogin == followUp
      ensures view == old(view) && cartOpen == old(cartOpen) && addressOpen == old(addressOpen)
      ensures placedOrder == old(placedOrder)
    {
      authOpen := true;
      authTab := tab.GetOr(LoginTab);
      authHint := hint.GetOr("");
      afterLogin := followUp;
    }

    /** Closing the dialog drops any pending follow-up and keeps tab and hint. */
    method CloseAuth()
      modifies this
      ensures !authOpen && afterLogin.None? && authTab == old(authTab) && authHint == old(authHint)
      ensures view == old(view) && cartOpen == old(cartOpen) && addressOpen == old(addressOpen)
      ensures placedOrder == old(placedOrder)
    {
      authOpen := false;
      afterLogin := None;
    }

    /** A signed-in checkout: the drawer gives way to the address form. */
    method HandleCheckout()
      modifies this
      ensures !cartOpen && addressOpen
      ensures view == old(view) && placedOrder == old(placedOrder) && authOpen == old(authOpen)
      ensures authTab == old(authTab) && authHint == old(authHint) && afterLogin == old(afterLogin)
    {
      cartOpen := false;
      addressOpen := true;
    }

    /** A guest checkout: the login tab with the checkout hint, reopening the cart once signed in. */
    method HandleRequireAuth()
      modifies this
      ensures authOpen && authTab == LoginTab && authHint == CheckoutHint && afterLogin == Some(ReopenCart)
      ensures view == old(view) && cartOpen == old(cartOpen) && addressOpen == old(addressOpen)
      ensures placedOrder == old(placedOrder)
    {
      OpenAuth(Some(LoginTab), Some(CheckoutHint), Some(ReopenCart));
    }

    /**
     * "Proceed to Checkout" in the drawer: the drawer closes, then a guest
     * is sent to sign in and a signed-in user to the address form.
     */
    method CartCheckout(user: Option<Session>)
      modifies this
      ensures !cartOpen && view == old(view) && placedOrder == old(placedOrder)
      ensures addressOpen <==> user.Some? || old(addressOpen)
      ensures user.None? ==>
                authOpen && authTab == LoginTab && authHint == CheckoutHint && afterLogin == Some(ReopenCart)
      ensures user.Some? ==>
                authOpen == old(authOpen) && authTab == old(authTab) && authHint == old(authHint) &&
                afterLogin == old(afterLogin)
    {
      cartOpen := false;
      match RouteFor(user)
      case AskSignIn => HandleRequireAuth();
      case EnterAddress => HandleCheckout();
    }

    /**
     * The address form is confirmed: it closes, the cart's lines, total and
     * count are placed as an order for the session user, the cart is
     * emptied, and the placed order (none without a session) is shown.
     */
    method HandleAddressConfirm(address: DeliveryAddress, cart: Cart, orders: OrderStore,
                                user: Option<Session>, newId: int, now: int)
      modifies this, cart, orders
      ensures !addressOpen && cart.items == [] && view == old(view) && cartOpen == old(cartOpen)
      ensures authOpen == old(authOpen) && authTab == old(authTab) && authHint == old(authHint)
      ensures afterLogin == old(afterLogin)
      ensures user.None? ==> placedOrder.None? && orders.allOrders == old(orders.allOrders)
      ensures user.Some? ==>
                var o := NewOrder(user.value, newId, now, old(cart.items), TotalPrice(old(cart.items)),
                                  TotalItems(old(cart.items)), Some(address));
                placedOrder == Some(o) && orders.allOrders == Placed(old(orders.allOrders), user.value.id, o)
      ensures old(orders.Valid()) ==> orders.Valid()
    {
      addressOpen := false;
      var items := cart.items;
      var order := orders.PlaceOrder(user, newId, now, items, TotalPrice(items), TotalItems(items), Some(address));
      cart.ClearCart();
      placedOrder := order;
    }

    /** Dismissing the address form returns to the cart. */
    method CloseAddress()
      modifies this
      ensures !addressOpen && cartOpen
      ensures view == old(view) && placedOrder == old(placedOrder) && authOpen == old(authOpen)
      ensures authTab == old(authTab) && authHint == old(authHint) && afterLogin == old(afterLogin)
    {
      addressOpen := false;
      cartOpen := true;
    }

    /** A successful sign-in runs the pending follow-up, if any. */
    method HandleAuthSuccess()
      modifies this
      ensures cartOpen == (old(cartOpen) || old(afterLogin) == Some(ReopenCart))
      ensures view == old(view) && addressOpen == old(addressOpen) && placedOrder == old(placedOrder)
      ensures authOpen == old(authOpen) && authTab == old(authTab) && authHint == old(authHint)
      ensures afterLogin == old(afterLogin)
    {
      if afterLogin == Some(ReopenCart) {
        cartOpen := true;
      }
    }

    /** The dialog reports success and then closes itself. */
    method AuthSucceeded()
      modifies this
      ensures cartOpen == (old(cartOpen) || old(afterLogin) == Some(ReopenCart))
      ensures !authOpen && afterLogin.None? && authTab == old(authTab) && authHint == old(authHint)
      ensures view == old(view) && addressOpen == old(addressOpen) && placedOrder == old(placedOrder)
    {
      HandleAuthSuccess();
      CloseAuth();
    }

    /** The navigation bar's cart button. */
    method OpenCart()
      modifies this
      ensures cartOpen && view == old(view) && addressOpen == old(addressOpen)
      ensures placedOrder == old(placedOrder) && authOpen == old(authOpen)
      ensures authTab == old(authTab) && authHint == old(authHint) && afterLogin == old(afterLogin)
    {
      cartOpen := true;
    }

    /** The drawer's close button, its backdrop and the Escape key. */
    method CloseCart()
      modifies this
      ensures !cartOpen && view == old(view) && addressOpen == old(addressOpen)
      ensures placedOrder == old(placedOrder) && authOpen == old(authOpen)
      ensures authTab == old(authTab) && authHint == old(authHint) && afterLogin == old(afterLogin)
    {
      cartOpen := false;
    }

    /** The navigation bar's sign-in button: the login tab, no hint, no follow-up. */
    method SignIn()
      modifies this
      ensures authOpen && authTab == LoginTab && authHint == "" && afterLogin.None?
      ensures view == old(view) && cartOpen == old(cartOpen) && addressOpen == old(addressOpen)
      ensures placedOrder == old(placedOrder)
    {
      OpenAuth(None, None, None);
    }

    method GoAccount()
      modifies this
      ensures view == Account && cartOpen == old(cartOpen) && placedOrder == old(placedOrder)
      ensures authOpen == old(authOpen) && addressOpen == old(addressOpen)
      ensures authTab == old(authTab) && authHint == old(authHint) && afterLogin == old(afterLogin)
    {
      view := Account;
    }

    /** The account page's back button. */
    method GoHome()
      modifies this
      ensures view == Home && cartOpen == old(cartOpen) && placedOrder == old(placedOrder)
      ensures authOpen == old(authOpen) && addressOpen == old(addressOpen)
      ensures authTab == old(authTab) && authHint == old(authHint) && afterLogin == old(afterLogin)
    {
      view := Home;
    }

    /** Closing the order confirmation returns to the home page. */
    method DismissSuccess()
      modifies this
      ensures placedOrder.None? && view == Home
      ensures cartOpen == old(cartOpen) && addressOpen == old(addressOpen) && authOpen == old(authOpen)
      ensures authTab == old(authTab) && authHint == old(authHint) && afterLogin == old(afterLogin)
    {
      placedOrder := None;
      view := Home;
    }

    /** "View orders" on the confirmation opens the account page. */
    method ViewOrders()
      modifies this
      ensures placedOrder.None? && view == Account
      ensures cartOpen == old(cartOpen) && addressOpen == old(addressOpen) && authOpen == old(authOpen)
      ensures authTab == old(authTab) && authHint == old(authHint) && afterLogin == old(afterLogin)
    {
      placedOrder := None;
      view := Account;
    }
  }
}
