/**
 * The checkout page: it prices the stored cart with its own flat fee,
 * turns the submitted form into an order (the confirmation shown in the
 * modal and the e-mail payload), and passes the order to the order-email
 * route, clearing the cart once the route reports success.
 */
module Checkout {
  import opened Wrappers
  import opened JsString
  import opened Json
  import opened Types
  import opened Products
  import opened Cart
  import opened Pricing
  import opened OrderEmail

  const EmptyCartError := "Add at least one product before checking out."
  const EmailFailedError := "We couldn't send the order email. Please try again."
  const UnreachableError := "Unable to reach the email service. Please try again in a moment."

  const DefaultName := "Friend"
  const DefaultStreet := "\U{2014}"
  const DefaultCity := "Lebanon"
  const DefaultPhone := "Not provided"
  const DefaultPayment := "Cash On Delivery"

  // ---- the submitted form -------------------------------------------------

  /** What `FormData.get` returns for a field that is present: a string or a file. */
  datatype FormValue = FormText(text: string) | FormFile

  type Form = map<string, FormValue>

  /** `getField(key)`: a text field, trimmed; a missing field or a file is "". */
  function GetField(form: Form, key: string): (r: string)
    ensures key in form && form[key].FormText? ==> r == Trim(form[key].text)
    ensures !(key in form && form[key].FormText?) ==> r == []
  {
    if key in form && form[key].FormText? then Trim(form[key].text) else ""
  }

  /** `value || fallback` on strings: the empty string is the only falsy one. */
  function OrDefault(value: string, fallback: string): (r: string)
    ensures value != [] ==> r == value
    ensures value == [] ==> r == fallback
  {
    if value == [] then fallback else value
  }

  /** `email || undefined` */
  function NonEmpty(value: string): (r: Option<string>)
    ensures r.Some? <==> value != []
    ensures r.Some? ==> r.value == value
  {
    if value == [] then None else Some(value)
  }

  /** A field of nothing but white space, or no field at all, falls back to the default. */
  lemma BlankFieldDefaults(form: Form, key: string, fallback: string)
    requires key in form ==> form[key].FormText? && forall k :: 0 <= k < |form[key].text| ==> IsWhiteSpace(form[key].text[k])
    ensures OrDefault(GetField(form, key), fallback) == fallback
  {
    if key in form {
      TrimEmpty(form[key].text);
    }
  }

  // ---- the order id -------------------------------------------------------

  /** `UC-${Date.now().toString(36).toUpperCase()}`, for the clock reading `now`. */
  function OrderId(now: nat): (r: string)
    ensures |r| > 3 && r[..3] == "UC-"
    ensures forall i :: 3 <= i < |r| ==> IsDecimalDigit(r[i]) || 'A' <= r[i] <= 'Z'
  {
    "UC-" + ToUpper(NatToString(now, 36))
  }

  /** The clock reading can be read back from the id. */
  lemma OrderIdRoundTrip(now: nat)
    ensures RadixValue(OrderId(now)[3..], 36) == now
  {
    assert OrderId(now)[3..] == ToUpper(NatToString(now, 36));
    RadixValueUpper(NatToString(now, 36), 36);
    NatToStringRoundTrip(now, 36);
  }

  /** Different clock readings give different order ids. */
  lemma OrderIdInjective(a: nat, b: nat)
    ensures OrderId(a) == OrderId(b) <==> a == b
  {
    if OrderId(a) == OrderId(b) {
      OrderIdRoundTrip(a);
      OrderIdRoundTrip(b);
    }
  }

  // ---- the order ----------------------------------------------------------

  /** The order summary the confirmation modal shows. */
  datatype ConfirmationData = ConfirmationData(
    orderId: string,
    fullName: string,
    street: string,
    city: string,
    phone: string,
    email: Option<string>,
    notes: string,
    paymentMethod: string
  )

  datatype Order = Order(payload: OrderConfirmationProps, confirmation: ConfirmationData)

  /** The e-mail payload and the modal describe the same order, which has at least one line. */
  predicate Matches(payload: OrderConfirmationProps, confirmation: ConfirmationData) {
    && payload.orderId == confirmation.orderId
    && payload.customerName == confirmation.fullName
    && payload.shippingAddress ==
       ShippingAddress(confirmation.street, confirmation.city, confirmation.phone, confirmation.email)
    && payload.lines != []
  }

  /** `shippingFee === 0 ? "Free" : "$" + shippingFee.toFixed(2)` */
  function ShippingLabel(fee: int): (r: string)
    ensures r == "Free" <==> fee == 0
  {
    if fee == 0 then "Free" else Dollars(fee)
  }

  /** One e-mail line: name, formatted colour, quantity and the line's price after discount. */
  function LineFor(line: CartLine): OrderLine {
    OrderLine(line.product.name, Some(FormatColorLabel(Some(line.color))), line.quantity, Dollars(LinePrice(line)))
  }

  /** `cartDetails.map(...)`: one e-mail line per cart line, in the same order. */
  function OrderLines(details: seq<CartLine>): (lines: seq<OrderLine>)
    ensures |lines| == |details|
    ensures forall i :: 0 <= i < |details| ==>
              lines[i].name == details[i].product.name && lines[i].quantity == details[i].quantity
    ensures forall i :: 0 <= i < |details| ==> lines[i].color == Some(FormatColorLabel(Some(details[i].color)))
  {
    seq(|details|, i requires 0 <= i < |details| => LineFor(details[i]))
  }

  /** The amount the line price labels denote, added up. */
  function LabelledTotal(lines: seq<OrderLine>): int {
    if lines == [] then 0 else ParsePrice(lines[0].price) + LabelledTotal(lines[1..])
  }

  /** Read back, each e-mail line's price label is that line's price after discount. */
  lemma LinePriceLabels(details: seq<CartLine>)
    requires forall i :: 0 <= i < |details| ==> details[i].quantity > 0
    ensures forall i :: 0 <= i < |details| ==> ParsePrice(OrderLines(details)[i].price) == LinePrice(details[i])
  {
    forall i | 0 <= i < |details|
      ensures ParsePrice(OrderLines(details)[i].price) == LinePrice(details[i])
    {
      MulNonNegative(SalePrice(details[i].product), details[i].quantity);
      DollarsRoundTrip(LinePrice(details[i]));
    }
  }

  /** Read back, the e-mail's line prices add up to the subtotal after discount. */
  lemma {:induction false} LinesAddUp(details: seq<CartLine>)
    requires forall i :: 0 <= i < |details| ==> details[i].quantity > 0
    ensures LabelledTotal(OrderLines(details)) == SubtotalAfter(details)
  {
    if details != [] {
      assert OrderLines(details)[1..] == OrderLines(details[1..]);
      LinesAddUp(details[1..]);
      MulNonNegative(SalePrice(details[0].product), details[0].quantity);
      DollarsRoundTrip(LinePrice(details[0]));
    }
  }

  /** The order `handleSubmit` builds from non-empty cart details, their pricing, the form and the clock. */
  function BuildOrder(details: seq<CartLine>, pricing: PricingSnapshot, form: Form, now: nat): (o: Order)
    requires details != []
    ensures Matches(o.payload, o.confirmation)
    ensures o.payload.orderId == OrderId(now)
    ensures o.confirmation.fullName == OrDefault(GetField(form, "fullName"), DefaultName)
    ensures o.confirmation.street == OrDefault(GetField(form, "street"), DefaultStreet)
    ensures o.confirmation.city == OrDefault(GetField(form, "city"), DefaultCity)
    ensures o.confirmation.phone == OrDefault(GetField(form, "phone"), DefaultPhone)
    ensures o.confirmation.email == NonEmpty(GetField(form, "email"))
    ensures o.confirmation.notes == GetField(form, "notes")
    ensures o.confirmation.paymentMethod == OrDefault(GetField(form, "paymentMethod"), DefaultPayment)
    ensures o.payload.total == Dollars(pricing.orderTotal)
    ensures o.payload.subtotal == Dollars(pricing.subtotalAfterDiscount)
    ensures o.payload.shipping == ShippingLabel(pricing.shippingFee)
    ensures o.payload.lines == OrderLines(details)
  {
    var fullName := OrDefault(GetField(form, "fullName"), DefaultName);
    var street := OrDefault(GetField(form, "street"), DefaultStreet);
    var city := OrDefault(GetField(form, "city"), DefaultCity);
    var phone := OrDefault(GetField(form, "phone"), DefaultPhone);
    var email := NonEmpty(GetField(form, "email"));
    var notes := GetField(form, "notes");
    var paymentMethod := OrDefault(GetField(form, "paymentMethod"), DefaultPayment);
    var orderId := OrderId(now);
    var payload := OrderConfirmationProps(
      fullName, orderId,
      Dollars(pricing.orderTotal), Dollars(pricing.subtotalAfterDiscount), ShippingLabel(pricing.shippingFee),
      OrderLines(details), ShippingAddress(street, city, phone, email));
    Order(payload, ConfirmationData(orderId, fullName, street, city, phone, email, notes, paymentMethod))
  }

  /**
   * `handleSubmit`'s result: nothing when no catalogue item is in the cart,
   * else the e-mail payload and the confirmation, for the clock reading `now`.
   */
  function AssembleOrder(catalogue: seq<Product>, cart: CartState, form: Form, now: nat): (r: Option<Order>)
    ensures r.None? <==> CartDetails(catalogue, cart) == []
    ensures r.Some? ==> Matches(r.value.payload, r.value.confirmation)
    ensures r.Some? ==> r.value.payload.orderId == OrderId(now)
    ensures r.Some? ==> r.value.confirmation.fullName == OrDefault(GetField(form, "fullName"), DefaultName)
    ensures r.Some? ==> r.value.confirmation.street == OrDefault(GetField(form, "street"), DefaultStreet)
    ensures r.Some? ==> r.value.confirmation.city == OrDefault(GetField(form, "city"), DefaultCity)
    ensures r.Some? ==> r.value.confirmation.phone == OrDefault(GetField(form, "phone"), DefaultPhone)
    ensures r.Some? ==> r.value.confirmation.email == NonEmpty(GetField(form, "email"))
    ensures r.Some? ==> r.value.confirmation.notes == GetField(form, "notes")
    ensures r.Some? ==> r.value.confirmation.paymentMethod == OrDefault(GetField(form, "paymentMethod"), DefaultPayment)
    ensures r.Some? ==> r.value.payload.lines == OrderLines(CartDetails(catalogue, cart))
  {
    var details := CartDetails(catalogue, cart);
    if details == [] then None
    else Some(BuildOrder(details, ComputePricing(catalogue, cart, CheckoutFlatFee), form, now))
  }

  /** There is an order exactly when the cart holds a catalogue item. */
  lemma OrderNeedsCatalogueItem(cart: CartState, form: Form, now: nat)
    ensures AssembleOrder(FeaturedProducts, cart, form, now).None? <==> "grip" !in cart && "light" !in cart
  {
    CartDetailsEmpty(FeaturedProducts, cart);
    assert FeaturedProducts[0].id == "grip" && FeaturedProducts[1].id == "light";
  }

  lemma FreeLabel()
    ensures ParsePrice("Free") == 0
  {
    KeepPriceCharsNone("Free");
    assert IndexOf([], '.') == 0 && RadixValue([], 10) == 0;
  }

  /** Read back, every amount label of the e-mail denotes the amount the page priced. */
  lemma OrderLabelsRoundTrip(catalogue: seq<Product>, cart: CartState, form: Form, now: nat)
    requires AllPositive(cart)
    requires AssembleOrder(catalogue, cart, form, now).Some?
    ensures var p := AssembleOrder(catalogue, cart, form, now).value.payload;
            var pricing := ComputePricing(catalogue, cart, CheckoutFlatFee);
            && ParsePrice(p.total) == pricing.orderTotal
            && ParsePrice(p.subtotal) == pricing.subtotalAfterDiscount
            && ParsePrice(p.shipping) == pricing.shippingFee
            && LabelledTotal(p.lines) == pricing.subtotalAfterDiscount
  {
    var details := CartDetails(catalogue, cart);
    var pricing := ComputePricing(catalogue, cart, CheckoutFlatFee);
    PricingNonNegative(catalogue, cart, CheckoutFlatFee);
    DollarsRoundTrip(pricing.orderTotal);
    DollarsRoundTrip(pricing.subtotalAfterDiscount);
    if pricing.shippingFee == 0 {
      FreeLabel();
    } else {
      DollarsRoundTrip(pricing.shippingFee);
    }
    LinesAddUp(details);
  }

  /** The guest checkout: an empty form gets every default, no e-mail and empty notes. */
  lemma EmptyFormDefaults(catalogue: seq<Product>, cart: CartState, now: nat)
    requires AssembleOrder(catalogue, cart, map[], now).Some?
    ensures AssembleOrder(catalogue, cart, map[], now).value.confirmation ==
            ConfirmationData(OrderId(now), DefaultName, DefaultStreet, DefaultCity, DefaultPhone, None, "", DefaultPayment)
  {
  }

  /** A customer who gave an e-mail address gets a copy of the order e-mail, after the admin. */
  lemma CustomerGetsCopy(catalogue: seq<Product>, cart: CartState, form: Form, now: nat, env: Env, support: string)
    requires AssembleOrder(catalogue, cart, form, now).Some? && GetField(form, "email") != []
    ensures var m := EmailFor(env, support, AssembleOrder(catalogue, cart, form, now).value.payload);
            GetField(form, "email") in m.to && m.to[0] == AdminAddress(env, support)
  {
  }

  // ---- the route's answer as the page reads it ------------------------------

  /**
   * What `fetch` and `response.json().catch(() => null)` deliver: a status
   * and the body when it was JSON, or a thrown network error.
   */
  datatype FetchOutcome = Responded(status: int, body: Option<ResponseBody>) | Unreachable

  /** `response.ok && result?.success` */
  predicate Accepted(outcome: FetchOutcome) {
    outcome.Responded? && 200 <= outcome.status <= 299 && outcome.body.Some? && outcome.body.value.success
  }

  /** The page accepts the route's answer exactly when the route was configured and the provider delivered. */
  lemma RouteAccepted(env: Env, support: string, payload: OrderConfirmationProps, provider: ProviderOutcome)
    ensures var r := Post(env, support, Parsed(payload), provider);
            Accepted(Responded(r.status, Some(r.body))) <==> Configured(env) && provider.Delivered?
  {
  }

  // ---- the page -------------------------------------------------------------

  /** The checkout (`CheckoutPage`) component. */
  class CheckoutPage {
    var cart: CartState
    var confirmationData: Option<ConfirmationData>
    var pendingEmailPayload: Option<OrderConfirmationProps>
    var isSendingEmail: bool
    var submitError: Option<string>
    /** Browser storage, and whether the router was sent back to the storefront. */
    var storage: map<string, StoredString>
    var navigatedHome: bool
    /** What the mount effect read before scheduling its frame, and the catalogue the page lists. */
    const mountedCart: CartState
    const catalogue: seq<Product>

    /** Quantities stay positive; the modal and the pending e-mail come and go together and describe one order. */
    ghost predicate Valid()
      reads this
    {
      && AllPositive(cart) && AllPositive(mountedCart)
      && (pendingEmailPayload.Some? <==> confirmationData.Some?)
      && (pendingEmailPayload.Some? ==> Matches(pendingEmailPayload.value, confirmationData.value))
    }

    /** Mounting: an empty cart, no order, and the read of the stored cart. */
    constructor (initial: map<string, StoredString>)
      ensures Valid()
      ensures cart == map[] && confirmationData.None? && pendingEmailPayload.None?
      ensures !isSendingEmail && submitError.None? && !navigatedHome
      ensures storage == initial
      ensures mountedCart == StoredCart(GetItem(initial, CartKey))
      ensures catalogue == FeaturedProducts
    {
      var parsed := ParseStoredCart(GetItem(initial, CartKey));
      StoredCartPositive(GetItem(initial, CartKey));
      cart := map[];
      confirmationData := None;
      pendingEmailPayload := None;
      isSendingEmail := false;
      submitError := None;
      storage := initial;
      navigatedHome := false;
      mountedCart := parsed;
      catalogue := FeaturedProducts;
    }

    /** The deferred frame: the stored cart replaces the cart. */
    method CartFrame()
      requires Valid()
      modifies this`cart
      ensures Valid()
      ensures cart == mountedCart
    {
      cart := mountedCart;
    }

    /** The submit button is enabled when the cart holds a catalogue item. */
    predicate SubmitEnabled()
      reads this
    {
      CartDetails(catalogue, cart) != []
    }

    /** The "Pass Order" button is enabled while an order is pending and no e-mail is being sent. */
    predicate PassOrderEnabled()
      reads this
    {
      !isSendingEmail && pendingEmailPayload.Some?
    }

    /** `handleSubmit(event)` with the form's fields and the clock reading `now`. */
    method Submit(form: Form, now: nat)
      requires Valid()
      modifies this`confirmationData, this`pendingEmailPayload, this`submitError
      ensures Valid()
      ensures match AssembleOrder(catalogue, old(cart), form, now)
              case None =>
                submitError == Some(EmptyCartError) &&
                pendingEmailPayload == old(pendingEmailPayload) && confirmationData == old(confirmationData)
              case Some(order) =>
                submitError.None? &&
                pendingEmailPayload == Some(order.payload) && confirmationData == Some(order.confirmation)
    ensures submitError.None? <==> old(SubmitEnabled())
    ensures SubmitEnabled() == old(SubmitEnabled())
    {
      var order := AssembleOrder(catalogue, cart, form, now);
      if order.None? {
        submitError := Some(EmptyCartError);
      } else {
        Place(order.value);
      }
    }

    /** The state updates of a successful `handleSubmit`. */
    method Place(order: Order)
      requires Valid() && Matches(order.payload, order.confirmation)
      modifies this`confirmationData, this`pendingEmailPayload, this`submitError
      ensures Valid()
      ensures submitError.None? && pendingEmailPayload == Some(order.payload) && confirmationData == Some(order.confirmation)
    {
      submitError := None;
      pendingEmailPayload := Some(order.payload);
      confirmationData := Some(order.confirmation);
    }

    /**
     * The synchronous start of `handlePassOrder`: with an order pending it
     * marks the page as sending, clears the error and returns the payload
     * to post; without one it does nothing.
     */
    method BeginPassOrder() returns (sent: Option<OrderConfirmationProps>)
      requires Valid()
      modifies this`isSendingEmail, this`submitError
      ensures Valid()
      ensures sent == pendingEmailPayload
      ensures sent.None? ==> isSendingEmail == old(isSendingEmail) && submitError == old(submitError)
      ensures sent.Some? ==> isSendingEmail && submitError.None?
      ensures old(PassOrderEnabled()) ==> sent.Some? && !PassOrderEnabled()
    {
      sent := pendingEmailPayload;
      if sent.None? {
        return;
      }
      isSendingEmail := true;
      submitError := None;
    }

    /**
     * The rest of `handlePassOrder`, once the request settled: on success the
     * order, the cart and the stored cart go and the router goes home; on
     * failure only the error message changes; the sending flag is cleared
     * either way.
     */
    method FinishPassOrder(outcome: FetchOutcome)
      requires Valid()
      modifies this`pendingEmailPayload, this`confirmationData, this`cart, this`storage, this`navigatedHome
      modifies this`submitError, this`isSendingEmail
      ensures Valid()
      ensures !isSendingEmail
      ensures Accepted(outcome) ==>
                pendingEmailPayload.None? && confirmationData.None? && cart == map[] &&
                storage == old(storage) - {CartKey} && navigatedHome && submitError == old(submitError)
      ensures !Accepted(outcome) ==>
                pendingEmailPayload == old(pendingEmailPayload) && confirmationData == old(confirmationData) &&
                cart == old(cart) && storage == old(storage) && navigatedHome == old(navigatedHome)
      ensures outcome.Unreachable? ==> submitError == Some(UnreachableError)
      ensures outcome.Responded? && !Accepted(outcome) ==> submitError == Some(EmailFailedError)
      ensures Accepted(outcome) ==> !SubmitEnabled() && !PassOrderEnabled()
      ensures !Accepted(outcome) ==> PassOrderEnabled() == old(pendingEmailPayload).Some?
    {
      if outcome.Unreachable? {
        submitError := Some(UnreachableError);
      } else if !Accepted(outcome) {
        submitError := Some(EmailFailedError);
      } else {
        pendingEmailPayload := None;
        confirmationData := None;
        cart := map[];
        CartDetailsEmpty(catalogue, cart);
        storage := storage - {CartKey};
        navigatedHome := true;
      }
      isSendingEmail := false;
    }

    /** `handlePassOrder()` when nothing else runs while the request is in flight. */
    method PassOrder(outcome: FetchOutcome) returns (sent: Option<OrderConfirmationProps>)
      requires Valid()
      modifies this
      ensures Valid()
      ensures sent == old(pendingEmailPayload)
      ensures sent.None? ==> unchanged(this)
      ensures sent.Some? && Accepted(outcome) ==>
                pendingEmailPayload.None? && confirmationData.None? && cart == map[] &&
                storage == old(storage) - {CartKey} && navigatedHome && submitError.None? && !isSendingEmail
      ensures sent.Some? && !Accepted(outcome) ==>
                pendingEmailPayload == old(pendingEmailPayload) && confirmationData == old(confirmationData) &&
                cart == old(cart) && storage == old(storage) && navigatedHome == old(navigatedHome) &&
                !isSendingEmail &&
                submitError == Some(if outcome.Unreachable? then UnreachableError else EmailFailedError)
    {
      sent := BeginPassOrder();
      if sent.None? {
        return;
      }
      FinishPassOrder(outcome);
    }

    /** `closeModal()`: the order is dropped and the cart kept. */
    method CloseModal()
      requires Valid()
      modifies this`confirmationData, this`pendingEmailPayload
      ensures Valid()
      ensures confirmationData.None? && pendingEmailPayload.None?
      ensures !PassOrderEnabled()
    {
      confirmationData := None;
      pendingEmailPayload := None;
    }
  }
}
