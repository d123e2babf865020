/**
 * The checkout page (frontend/src/pages/books/CheckoutPage.jsx): the order
 * payload `onSubmit` assembles from the form and the cart, the terms checkbox
 * that disables the submit button, and the cart being cleared only after the
 * `createOrder` call succeeded.
 */
module Checkout {
  import opened Common
  import opened BookModel
  import opened CartSlice

  /** The values of the registered form fields handed to `onSubmit`. */
  datatype CheckoutForm = CheckoutForm(
    name: string,
    email: string,
    phone: string,
    address: string,
    city: string,
    country: string,
    state: string,
    zipcode: string)

  datatype LocationPayload = LocationPayload(address: string, city: string, country: string, state: string, zipcode: string)

  /** The `newOrder` object sent to `POST /api/orders/create-order`. */
  datatype OrderPayload = OrderPayload(
    name: string,
    email: string,
    location: LocationPayload,
    phone: string,
    productIds: seq<Id>,
    totalPrice: string)

  /**
   * Every field is registered with `required: true`, so `handleSubmit` only
   * calls `onSubmit` when none of them is empty.
   */
  predicate FormComplete(f: CheckoutForm) {
    |f.name| > 0 && |f.email| > 0 && |f.phone| > 0 && |f.address| > 0 && |f.city| > 0
    && |f.country| > 0 && |f.state| > 0 && |f.zipcode| > 0
  }

  /** The form as it can be read back from a payload. */
  function FormOf(o: OrderPayload): CheckoutForm {
    CheckoutForm(o.name, o.email, o.phone, o.location.address, o.location.city,
                 o.location.country, o.location.state, o.location.zipcode)
  }

  /**
   * The `newOrder` literal. `totalPrice` is the cart total already formatted by
   * `toFixed(2)`, computed outside this model.
   */
  function BuildOrder(cart: seq<Book>, form: CheckoutForm, totalPrice: string): (o: OrderPayload)
    ensures FormOf(o) == form
    ensures |o.productIds| == |cart|
    ensures forall i :: 0 <= i < |cart| ==> o.productIds[i] == cart[i].id
    ensures DistinctIds(cart) ==> NoDuplicates(o.productIds)
    ensures o.totalPrice == totalPrice
  {
    OrderPayload(form.name, form.email,
                 LocationPayload(form.address, form.city, form.country, form.state, form.zipcode),
                 form.phone, BookIds(cart), totalPrice)
  }

  /**
   * How `handleSubmit(onSubmit)` was reached. The form holds five `<button>`s
   * without a `type`, so each one submits: "Place an Order" (the only one with
   * `disabled={!isChecked}`) and the four icon buttons beside the country and
   * state inputs. Enter in a text input submits through the form's first submit
   * button, the country field's icon button, which is never disabled.
   */
  datatype Trigger = PlaceOrderButton | IconButton | EnterKey

  /** Whether a trigger goes through the disabled-while-unchecked button. */
  predicate ReachesSubmit(trigger: Trigger, termsChecked: bool) {
    termsChecked || !trigger.PlaceOrderButton?
  }

  /** What one submission attempt did. */
  datatype SubmitResult = SubmitResult(sent: Option<OrderPayload>, cart: CartState, navigatedTo: Option<string>)

  /**
   * Submitting the page as written. `createOrderSucceeds` is whether the
   * `unwrap()`ed mutation resolved; a rejection lands in the `catch` block,
   * which only shows an alert. The terms box blocks only the place-order button.
   */
  function PlaceOrder(trigger: Trigger, termsChecked: bool, form: CheckoutForm, state: CartState,
                      totalPrice: string, createOrderSucceeds: bool): (r: SubmitResult)
    ensures r.sent.Some? <==> FormComplete(form) && (termsChecked || trigger != PlaceOrderButton)
    ensures r.sent.Some? ==> r.sent.value == BuildOrder(state.cartItems, form, totalPrice)
    ensures r.sent.None? ==> r == SubmitResult(None, state, None)
    ensures r.sent.Some? && createOrderSucceeds ==> r.cart == InitialState && r.navigatedTo == Some("/orders")
    ensures !createOrderSucceeds ==> r.cart == state && r.navigatedTo.None?
    ensures ValidCart(state) ==> ValidCart(r.cart)
  {
    if !ReachesSubmit(trigger, termsChecked) || !FormComplete(form) then SubmitResult(None, state, None)
    else
      var newOrder := BuildOrder(state.cartItems, form, totalPrice);
      if createOrderSucceeds then SubmitResult(Some(newOrder), ClearCart(state), Some("/orders"))
      else SubmitResult(Some(newOrder), state, None)
  }

  /** With the terms unchecked, Enter or an icon button still sends a complete form's order. */
  lemma TermsGateBypassed(trigger: Trigger, form: CheckoutForm, state: CartState, totalPrice: string,
                          createOrderSucceeds: bool)
    requires trigger != PlaceOrderButton && FormComplete(form)
    ensures PlaceOrder(trigger, false, form, state, totalPrice, createOrderSucceeds).sent
         == Some(BuildOrder(state.cartItems, form, totalPrice))
  {
  }

  /**
   * The evidently intended page: the icon buttons are `type='button'`, so the
   * only submit button is "Place an Order" and Enter submits through it; while
   * it is disabled nothing is submitted, whatever the trigger. The icon
   * buttons then submit nothing.
   */
  function PlaceOrderGated(trigger: Trigger, termsChecked: bool, form: CheckoutForm, state: CartState,
                           totalPrice: string, createOrderSucceeds: bool): (r: SubmitResult)
    ensures r.sent.Some? ==> termsChecked
    ensures r.sent.Some? <==> termsChecked && FormComplete(form) && !trigger.IconButton?
    ensures r.sent.Some? ==> r.sent.value == BuildOrder(state.cartItems, form, totalPrice)
    ensures r.sent.None? ==> r == SubmitResult(None, state, None)
    ensures r.sent.Some? && createOrderSucceeds ==> r.cart == InitialState && r.navigatedTo == Some("/orders")
    ensures !createOrderSucceeds ==> r.cart == state && r.navigatedTo.None?
  {
    if trigger.IconButton? then SubmitResult(None, state, None)
    else PlaceOrder(PlaceOrderButton, termsChecked, form, state, totalPrice, createOrderSucceeds)
  }

  /** The gated page never places an order the customer has not agreed to, and otherwise acts as written. */
  lemma GatedAgreesWhenChecked(trigger: Trigger, form: CheckoutForm, state: CartState,
                                totalPrice: string, createOrderSucceeds: bool)
    requires trigger != IconButton
    ensures PlaceOrderGated(trigger, true, form, state, totalPrice, createOrderSucceeds)
         == PlaceOrder(trigger, true, form, state, totalPrice, createOrderSucceeds)
    ensures PlaceOrderGated(trigger, false, form, state, totalPrice, createOrderSucceeds).sent.None?
  {
  }
}
