/**
 * The cart drawer (components/productCartDrawer.tsx): its lines show each line's
 * amount, its footer the cart total, and "Realizar pedido" runs `handleCheckout`,
 * which either sends the shopper to sign in, turns an admin away, does nothing for
 * an empty cart, or hands over from the drawer to the checkout form.
 *
 * Notifications and navigation are returned as effects, in the order they happen.
 */
module CartDrawer {
  import opened Wrappers
  import opened Records
  import opened ProductCart
  import CartButton

  const LOGIN_PATH := "/iniciar-sesion"

  /** A toast handed to `setNotification`. */
  datatype Notification = Notification(title: string, description: string)

  const NOTICE_SIGN_IN := Notification("Inicia sesión para continuar", "Debes iniciar sesión como usuario para completar tu pedido")
  const NOTICE_ADMIN := Notification("Cuenta administradora", "Inicia sesión como usuario para crear pedidos")

  datatype Effect = Notify(notification: Notification) | Navigate(path: string)

  /** The cart context's two flags. */
  datatype Flags = Flags(drawerOpen: bool, checkoutOpen: bool)

  /** The flags after `handleCheckout`, and what it did besides. */
  datatype Checkout = Checkout(flags: Flags, effects: seq<Effect>)

  /**
   * `handleCheckout` for a cart holding `lineCount` lines: it never closes the
   * checkout form, leaves the drawer open only when it changes nothing, and says
   * or does something besides exactly when the account is missing or an admin.
   * For a signed-in shopper the flags stay as they were exactly when the cart is
   * empty or checkout is already showing with the drawer closed.
   */
  function CheckoutStep(account: Option<Account>, lineCount: nat, flags: Flags): (r: Checkout)
    ensures flags.checkoutOpen ==> r.flags.checkoutOpen
    ensures r.flags.drawerOpen ==> r.flags == flags
    ensures r.effects == [] <==> account.Some? && !account.value.admin
    ensures account.Some? && !account.value.admin ==>
              (r.flags == flags <==> lineCount == 0 || flags == Flags(false, true))
  {
    if account.None? then
      Checkout(flags.(drawerOpen := false), [Notify(NOTICE_SIGN_IN), Navigate(LOGIN_PATH)])
    else if account.value.admin then
      Checkout(flags.(drawerOpen := false), [Notify(NOTICE_ADMIN)])
    else if lineCount == 0 then
      Checkout(flags, [])
    else
      Checkout(Flags(false, true), [])
  }

  /** The amount a line shows: `unitPrice * quantity`. */
  function LineAmount(item: CartItem): int {
    item.unitPrice * item.quantity
  }

  /** The amounts down the drawer, one per line, in cart order. */
  function Amounts(items: seq<CartItem>): (r: seq<int>)
    ensures |r| == |items| && forall k :: 0 <= k < |items| ==> r[k] == LineAmount(items[k])
  {
    seq(|items|, k requires 0 <= k < |items| => LineAmount(items[k]))
  }

  function Sum(xs: seq<int>): int {
    if xs == [] then 0 else Sum(xs[..|xs| - 1]) + xs[|xs| - 1]
  }

  /** "Realizar pedido" is disabled exactly for an empty cart. */
  predicate CheckoutDisabled(items: seq<CartItem>) {
    |items| == 0
  }

  // ---------------------------------------------------------------------------
  // Properties

  /**
   * Checkout opens only for a signed-in, non-admin account with a non-empty cart;
   * then the drawer closes and nothing is announced.
   */
  lemma CheckoutOpens(account: Option<Account>, lineCount: nat, flags: Flags)
    requires !flags.checkoutOpen
    ensures var r := CheckoutStep(account, lineCount, flags);
      r.flags.checkoutOpen <==> account.Some? && !account.value.admin && lineCount > 0
    ensures var r := CheckoutStep(account, lineCount, flags);
      r.flags.checkoutOpen ==> !r.flags.drawerOpen && r.effects == []
  {
  }

  /**
   * Without an account the shopper is told to sign in and sent to the login page; an
   * admin is told to use a customer account. Either way the drawer closes and the
   * checkout flag is left as it was.
   */
  lemma CheckoutTurnedAway(account: Option<Account>, lineCount: nat, flags: Flags)
    requires account.None? || account.value.admin
    ensures var r := CheckoutStep(account, lineCount, flags);
      && !r.flags.drawerOpen && r.flags.checkoutOpen == flags.checkoutOpen
      && |r.effects| > 0 && r.effects[0].Notify?
      && (Navigate(LOGIN_PATH) in r.effects <==> account.None?)
  {
  }

  /** Only a missing account leads away from the page. */
  lemma NavigationOnlyWhenSignedOut(account: Option<Account>, lineCount: nat, flags: Flags)
    ensures (exists k | 0 <= k < |CheckoutStep(account, lineCount, flags).effects| ::
               CheckoutStep(account, lineCount, flags).effects[k].Navigate?)
            <==> account.None?
  {
    if account.None? {
      assert CheckoutStep(account, lineCount, flags).effects[1].Navigate?;
    }
  }

  /** The amounts on the lines add up to the subtotal in the footer, the cart total. */
  lemma {:induction false} SubtotalIsSumOfLines(items: seq<CartItem>)
    ensures Sum(Amounts(items)) == Total(items)
    decreases |items|
  {
    if items != [] {
      var init := items[..|items| - 1];
      assert Amounts(items)[..|items| - 1] == Amounts(init);
      SubtotalIsSumOfLines(init);
    }
  }

  /** For a well-formed cart, the drawer's button and the cart button are disabled together. */
  lemma CheckoutDisabledAgreesWithCount(items: seq<CartItem>)
    requires AllPositive(items)
    ensures CheckoutDisabled(items) <==> CartButton.ItemsCount(items) == 0
  {
    CartButton.ItemsCountBounds(items);
  }

  /** `handleCheckout` on the cart context; the lines themselves are never touched. */
  method HandleCheckout(account: Option<Account>, cart: Cart) returns (effects: seq<Effect>)
    modifies cart`isDrawerOpen, cart`isCheckoutOpen
    ensures Checkout(Flags(cart.isDrawerOpen, cart.isCheckoutOpen), effects)
            == CheckoutStep(account, |cart.items|, Flags(old(cart.isDrawerOpen), old(cart.isCheckoutOpen)))
  {
    if account.None? {
      effects := [Notify(NOTICE_SIGN_IN)];
      cart.SetDrawerOpen(false);
      effects := effects + [Navigate(LOGIN_PATH)];
      return;
    }
    if account.value.admin {
      effects := [Notify(NOTICE_ADMIN)];
      cart.SetDrawerOpen(false);
      return;
    }
    effects := [];
    if |cart.items| == 0 {
      return;
    }
    cart.SetDrawerOpen(false);
    cart.SetCheckoutOpen(true);
  }
}
