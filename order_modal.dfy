/**
 * The checkout form (components/modals/productOrderModal.tsx): opening it fills the
 * form from the account; submitting it shows the loading modal, validates the form
 * and the cart lines as an order request, posts it and, on success, announces the
 * order, empties the cart and closes the form; any failure goes to the error modal,
 * and the loading modal is hidden whatever happened.
 *
 * The POST is the environment's: its outcome is a parameter. The loading modal, the
 * notification, the error modal and the request are returned as effects, in order.
 */
module OrderModal {
  import opened Wrappers
  import opened Records
  import opened ProductCart
  import opened OrderSchema
  import opened CartDrawer

  const LOADING_TITLE := "Procesando pedido..."
  const NOTICE_PLACED := Notification("Pedido registrado", "Te avisaremos cuando sea confirmado")

  /** The form's three fields. */
  datatype Form = Form(name: string, address: string, phone: string)

  /** `account?.field ?? ""` for each field. */
  function FormFor(account: Option<Account>): (f: Form)
    ensures account.None? ==> f == Form("", "", "")
    ensures account.Some? ==>
              && (account.value.name.Some? ==> f.name == account.value.name.value)
              && (account.value.address.Some? ==> f.address == account.value.address.value)
              && (account.value.phone.Some? ==> f.phone == account.value.phone.value)
    ensures account.Some? ==>
              && (account.value.name.None? ==> f.name == "")
              && (account.value.address.None? ==> f.address == "")
              && (account.value.phone.None? ==> f.phone == "")
  {
    match account
    case None => Form("", "", "")
    case Some(a) => Form(a.name.GetOr(""), a.address.GetOr(""), a.phone.GetOr(""))
  }

  /** A cart line as the request sends it: `{ productId, quantity }`. */
  function ItemJson(item: CartItem): Json {
    JObj(map["productId" := JNum(item.productId as real), "quantity" := JNum(item.quantity as real)])
  }

  /** `{ ...form, items: items.map(...) }`, before validation. */
  function Payload(form: Form, items: seq<CartItem>): Json {
    JObj(map[
      "name" := JStr(form.name),
      "address" := JStr(form.address),
      "phone" := JStr(form.phone),
      "items" := JArr(seq(|items|, k requires 0 <= k < |items| => ItemJson(items[k])))])
  }

  /** How the awaited POST settles: the order comes back, or the call throws. */
  datatype PostOutcome = Delivered | Failed

  /** What reaches the error modal: the validation error, or the failed request. */
  datatype ErrorCause = InvalidForm(issues: seq<Issue>) | RequestFailed

  datatype ModalEffect =
    | ShowLoading(title: string)
    | Post(request: CreateProductOrder)
    | Announce(notification: Notification)
    | ShowError(cause: ErrorCause)
    | HideLoading

  /** The cart's lines and checkout flag after a submit, and what it did besides. */
  datatype Submission = Submission(items: seq<CartItem>, checkoutOpen: bool, effects: seq<ModalEffect>)

  /**
   * `handleSubmit`, with the POST settling as `outcome`: the cart is either emptied
   * with the form closed, or left exactly as it was; something is shown
   * exactly when there is an account; and the cart only changes along with the
   * "Pedido registrado" notice, so a submit without an account changes nothing.
   */
  function Submit(account: Option<Account>, form: Form, items: seq<CartItem>, checkoutOpen: bool, outcome: PostOutcome)
    : (r: Submission)
    ensures (r.items == [] && !r.checkoutOpen) || (r.items == items && r.checkoutOpen == checkoutOpen)
    ensures r.effects == [] <==> account.None?
    ensures r.items != items || r.checkoutOpen != checkoutOpen ==> Announce(NOTICE_PLACED) in r.effects
  {
    if account.None? then Submission(items, checkoutOpen, [])
    else Settle(Validate(Payload(form, items)), items, checkoutOpen, outcome)
  }

  /**
   * The `try` block and what follows it, once the request has been validated (or
   * not): the cart is emptied and the form closed, or both are left alone, and the
   * loading modal is always shown; the cart changes only when the order is announced.
   */
  function Settle(parsed: Result<CreateProductOrder, seq<Issue>>, items: seq<CartItem>, checkoutOpen: bool, outcome: PostOutcome)
    : (r: Submission)
    ensures (r.items == [] && !r.checkoutOpen) || (r.items == items && r.checkoutOpen == checkoutOpen)
    ensures r.effects != [] && r.effects[0] == ShowLoading(LOADING_TITLE)
    ensures r.items != items || r.checkoutOpen != checkoutOpen ==> Announce(NOTICE_PLACED) in r.effects
  {
    match parsed
    case Err(issues) =>
      Submission(items, checkoutOpen, [ShowLoading(LOADING_TITLE), ShowError(InvalidForm(issues)), HideLoading])
    case Ok(request) =>
      if outcome == Delivered then
        Submission([], false, [ShowLoading(LOADING_TITLE), Post(request), Announce(NOTICE_PLACED), HideLoading])
      else
        Submission(items, checkoutOpen, [ShowLoading(LOADING_TITLE), Post(request), ShowError(RequestFailed), HideLoading])
  }

  /** "Confirmar pedido" is disabled exactly for an empty cart. */
  predicate SubmitDisabled(items: seq<CartItem>) {
    |items| == 0
  }

  // ---------------------------------------------------------------------------
  // Properties

  /**
   * The client-side check accepts the request exactly when the name, address and
   * phone are well formed and the cart has lines, all with positive quantities; the
   * request then carries the form's fields and one item per cart line, in order.
   */
  lemma PayloadAccepted(form: Form, items: seq<CartItem>)
    ensures Validate(Payload(form, items)).Ok? <==>
              ValidName(form.name) && ValidAddress(form.address) && ValidPhone(form.phone)
              && items != [] && AllPositive(items)
    ensures Validate(Payload(form, items)).Ok? ==>
              var request := Validate(Payload(form, items)).value;
              && request.name == form.name && request.address == form.address && request.phone == form.phone
              && |request.items| == |items|
              && forall k :: 0 <= k < |items| ==>
                   request.items[k] == OrderItem(items[k].productId as real, items[k].quantity)
  {
    var body := Payload(form, items);
    var es := body.fields["items"].elems;
    ValidateAccepts(body);
    assert forall k :: 0 <= k < |items| ==> es[k] == ItemJson(items[k]);
    if AllPositive(items) {
      forall k | 0 <= k < |items| ensures ValidItem(es[k]) {
        assert (items[k].quantity as real).Floor == items[k].quantity;
      }
    }
    if ValidRequest(body) {
      forall k | 0 <= k < |items| ensures items[k].quantity > 0 {
        assert ValidItem(es[k]);
      }
      ValidatePayload(body);
      var request := Validate(body).value;
      forall k | 0 <= k < |items|
        ensures request.items[k] == OrderItem(items[k].productId as real, items[k].quantity)
      {
        assert request.items[k].quantity as real == items[k].quantity as real;
      }
    }
  }

  /**
   * With an account, the loading modal is shown first and hidden last, on every path,
   * and neither happens anywhere in between.
   */
  lemma LoadingBracketed(account: Account, form: Form, items: seq<CartItem>, checkoutOpen: bool, outcome: PostOutcome)
    ensures var e := Submit(Some(account), form, items, checkoutOpen, outcome).effects;
      && |e| >= 3
      && e[0] == ShowLoading(LOADING_TITLE) && e[|e| - 1] == HideLoading
      && forall k :: 0 < k < |e| - 1 ==> !e[k].ShowLoading? && !e[k].HideLoading?
  {
    SettleBracketed(Validate(Payload(form, items)), items, checkoutOpen, outcome);
  }

  lemma SettleBracketed(parsed: Result<CreateProductOrder, seq<Issue>>, items: seq<CartItem>, checkoutOpen: bool, outcome: PostOutcome)
    ensures var e := Settle(parsed, items, checkoutOpen, outcome).effects;
      && |e| >= 3
      && e[0] == ShowLoading(LOADING_TITLE) && e[|e| - 1] == HideLoading
      && forall k :: 0 < k < |e| - 1 ==> !e[k].ShowLoading? && !e[k].HideLoading?
  {
  }

  /**
   * The cart is emptied and the form closed exactly when the request is valid and
   * the POST succeeds; on any failure the lines and the checkout flag stay as they
   * were and the error modal is set.
   */
  lemma SuccessOrUnchanged(account: Account, form: Form, items: seq<CartItem>, checkoutOpen: bool, outcome: PostOutcome)
    ensures var r := Submit(Some(account), form, items, checkoutOpen, outcome);
      var placed := Validate(Payload(form, items)).Ok? && outcome == Delivered;
      && (placed ==> r.items == [] && !r.checkoutOpen && Announce(NOTICE_PLACED) in r.effects)
      && (!placed ==> r.items == items && r.checkoutOpen == checkoutOpen
                      && (exists k | 0 <= k < |r.effects| :: r.effects[k].ShowError?)
                      && Announce(NOTICE_PLACED) !in r.effects)
  {
    SettleOutcome(Validate(Payload(form, items)), items, checkoutOpen, outcome);
  }

  lemma SettleOutcome(parsed: Result<CreateProductOrder, seq<Issue>>, items: seq<CartItem>, checkoutOpen: bool, outcome: PostOutcome)
    ensures var r := Settle(parsed, items, checkoutOpen, outcome);
      var placed := parsed.Ok? && outcome == Delivered;
      && (placed ==> r.items == [] && !r.checkoutOpen && Announce(NOTICE_PLACED) in r.effects)
      && (!placed ==> r.items == items && r.checkoutOpen == checkoutOpen
                      && (exists k | 0 <= k < |r.effects| :: r.effects[k].ShowError?)
                      && Announce(NOTICE_PLACED) !in r.effects)
  {
    var r := Settle(parsed, items, checkoutOpen, outcome);
    if !(parsed.Ok? && outcome == Delivered) {
      assert r.effects[1].ShowError? || r.effects[2].ShowError?;
    }
  }

  /**
   * A request is posted only once it has passed validation, and what is posted is
   * the cart: one item per line, with the line's product id and quantity, in order.
   */
  lemma PostedRequestIsCart(account: Account, form: Form, items: seq<CartItem>, checkoutOpen: bool, outcome: PostOutcome)
    ensures var e := Submit(Some(account), form, items, checkoutOpen, outcome).effects;
      forall k | 0 <= k < |e| :: e[k].Post? ==>
        && ValidName(form.name) && ValidAddress(form.address) && ValidPhone(form.phone)
        && e[k].request.name == form.name && e[k].request.address == form.address && e[k].request.phone == form.phone
        && |e[k].request.items| == |items|
        && forall j :: 0 <= j < |items| ==>
             e[k].request.items[j].productId == items[j].productId as real
             && e[k].request.items[j].quantity == items[j].quantity
  {
    var parsed := Validate(Payload(form, items));
    SettlePosts(parsed, items, checkoutOpen, outcome);
    PayloadAccepted(form, items);
  }

  lemma SettlePosts(parsed: Result<CreateProductOrder, seq<Issue>>, items: seq<CartItem>, checkoutOpen: bool, outcome: PostOutcome)
    ensures var e := Settle(parsed, items, checkoutOpen, outcome).effects;
      forall k | 0 <= k < |e| :: e[k].Post? ==> parsed.Ok? && e[k].request == parsed.value
  {
  }

  /** An enabled submit from a well-formed cart with well-formed fields always posts. */
  lemma EnabledSubmitPosts(account: Account, form: Form, items: seq<CartItem>, checkoutOpen: bool, outcome: PostOutcome)
    requires !SubmitDisabled(items) && WellFormed(items)
    requires ValidName(form.name) && ValidAddress(form.address) && ValidPhone(form.phone)
    ensures Submit(Some(account), form, items, checkoutOpen, outcome).effects[1].Post?
  {
    PayloadAccepted(form, items);
  }

  /** The form state, overwritten whenever checkout opens. */
  class CheckoutForm {
    var form: Form

    /** `useState` with the account's fields. */
    constructor (account: Option<Account>)
      ensures form == FormFor(account)
    {
      form := FormFor(account);
    }

    /** The effect on `[account, isCheckoutOpen]`: refill when open, otherwise leave alone. */
    method OnCheckoutOpenChange(account: Option<Account>, isCheckoutOpen: bool)
      modifies this
      ensures isCheckoutOpen ==> form == FormFor(account)
      ensures !isCheckoutOpen ==> form == old(form)
    {
      if !isCheckoutOpen {
        return;
      }
      form := FormFor(account);
    }
  }

  /** `handleSubmit` on the cart context, the POST settling as `outcome`. */
  method HandleSubmit(account: Option<Account>, form: Form, cart: Cart, outcome: PostOutcome)
    returns (effects: seq<ModalEffect>)
    modifies cart`items, cart`isCheckoutOpen
    ensures Submission(cart.items, cart.isCheckoutOpen, effects)
            == Submit(account, form, old(cart.items), old(cart.isCheckoutOpen), outcome)
    ensures old(cart.Valid()) ==> cart.Valid()
  {
    effects := [];
    if account.None? {
      return;
    }
    var parsed := Validate(Payload(form, cart.items));
    effects := TrySubmit(parsed, cart, outcome);
  }

  /** From `setLoadingModal` to the `finally` block, with the validation already done. */
  method TrySubmit(parsed: Result<CreateProductOrder, seq<Issue>>, cart: Cart, outcome: PostOutcome)
    returns (effects: seq<ModalEffect>)
    modifies cart`items, cart`isCheckoutOpen
    ensures Submission(cart.items, cart.isCheckoutOpen, effects)
            == Settle(parsed, old(cart.items), old(cart.isCheckoutOpen), outcome)
    ensures old(cart.Valid()) ==> cart.Valid()
  {
    effects := [ShowLoading(LOADING_TITLE)];
    if parsed.Err? {
      effects := effects + [ShowError(InvalidForm(parsed.error))];
    } else {
      effects := effects + [Post(parsed.value)];
      if outcome == Delivered {
        effects := effects + [Announce(NOTICE_PLACED)];
        cart.Clear();
        cart.SetCheckoutOpen(false);
      } else {
        effects := effects + [ShowError(RequestFailed)];
      }
    }
    effects := effects + [HideLoading];
  }
}
