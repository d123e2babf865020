/**
 * How the client and the server pieces fit together: the `Authorization`
 * header the client builds (frontend/src/redux/features/books/booksAPI.js)
 * against the middleware that reads it, a login token replayed on an admin
 * route, the checkout payload landing in the order collection, and the edit
 * form's body applied by the update route.
 */
module Storefront {
  import opened Common
  import opened BookModel
  import opened OrderModel
  import opened UserModel
  import opened AdminToken
  import UserRoute
  import OrderRoute
  import opened CartSlice
  import opened Checkout
  import opened UpdateBookForm

  /** `if (token) Headers.set('Authorization', `Bearer ${token}`)`. */
  function AuthorizationHeader(token: Option<string>): (h: Option<string>)
    ensures h.Some? <==> token.Some? && token.value != ""
    ensures h.Some? ==> h.value == "Bearer " + token.value
  {
    if token.Some? && token.value != "" then Some("Bearer " + token.value) else None
  }

  /** A space-free token sent in the client's header is exactly what the middleware extracts. */
  lemma {:induction false} BearerRoundTrip(token: string)
    requires ' ' !in token && token != ""
    ensures ExtractToken(AuthorizationHeader(Some(token))) == Some(token)
    ensures TokenPresented(AuthorizationHeader(Some(token)))
  {
    SplitTwoWords("Bearer", token);
    assert "Bearer " + token == "Bearer" + " " + token;
  }

  /**
   * The signing and verifying stand-ins agree as `jsonwebtoken` does within the
   * hour after `iat`: a token produced for some claims has no space in it, is
   * not empty, and verifies to those claims with `exp = iat + 3600`.
   */
  ghost predicate SignVerifyAgree(sign: (Claims, nat) -> Option<string>, verify: string -> VerifyResult, iat: int) {
    forall c: Claims {:trigger sign(c, UserRoute.TokenLifetime)} :: sign(c, UserRoute.TokenLifetime).Some? ==>
      var t := sign(c, UserRoute.TokenLifetime).value;
      ' ' !in t && t != "" && verify(t) == Valid(Payload(c, iat, iat + UserRoute.TokenLifetime))
  }

  /**
   * A token from a successful login opens the admin routes for the next hour,
   * with `req.user` carrying the stored user's id, username and role, whatever
   * that role is.
   */
  lemma {:induction false} LoginTokenPassesMiddleware(
    users: seq<User>, username: string, password: Option<string>,
    sign: (Claims, nat) -> Option<string>, verify: string -> VerifyResult, iat: int)
    requires SignVerifyAgree(sign, verify, iat)
    requires UserRoute.AdminLogin(users, username, password, false, sign).status == OK
    ensures var login := UserRoute.AdminLogin(users, username, password, false, sign);
            var u := users[UserRoute.FindOne(users, username).value];
            var m := VerifyAdminToken(AuthorizationHeader(login.token), verify);
            && m.nextCalls == 1 && m.reply.None?
            && m.user == Some(Payload(UserRoute.ClaimsOf(u), iat, iat + UserRoute.TokenLifetime))
  {
    var login := UserRoute.AdminLogin(users, username, password, false, sign);
    var u := users[UserRoute.FindOne(users, username).value];
    assert login.token == sign(UserRoute.ClaimsOf(u), UserRoute.TokenLifetime);
    BearerRoundTrip(login.token.value);
  }

  /** The JSON body the server receives for a checkout payload; `cast` is mongoose's cast to Number. */
  function ToOrderInput(p: OrderPayload, cast: string -> Option<Num>): (o: OrderInput)
    ensures o.name == Some(p.name) && o.email == Some(p.email) && o.phone == Some(p.phone)
    ensures o.location == Some(LocationInput(Some(p.location.address), Some(p.location.city),
                                             Some(p.location.country), Some(p.location.state),
                                             Some(p.location.zipcode)))
    ensures o.totalPrice == cast(p.totalPrice)
    ensures o.productIds.Some? && |o.productIds.value| == |p.productIds|
    ensures forall i :: 0 <= i < |p.productIds| ==> o.productIds.value[i] == Some(p.productIds[i])
  {
    OrderInput(Some(p.name), Some(p.email),
               Some(LocationInput(Some(p.location.address), Some(p.location.city), Some(p.location.country),
                                  Some(p.location.state), Some(p.location.zipcode))),
               Some(p.phone), Some(Wrap(p.productIds)), cast(p.totalPrice))
  }

  function Wrap(ids: seq<Id>): (r: seq<Option<Id>>)
    ensures |r| == |ids|
    ensures forall i :: 0 <= i < |ids| ==> r[i] == Some(ids[i])
  {
    if |ids| == 0 then [] else [Some(ids[0])] + Wrap(ids[1..])
  }

  /**
   * One checkout against the order route: the page submits, the server saves
   * (or not), and the page clears the cart exactly when the order was stored.
   */
  function CheckoutOnServer(trigger: Trigger, termsChecked: bool, form: CheckoutForm, state: CartState,
                            totalPrice: string, cast: string -> Option<Num>, store: seq<Order>, freshId: Id, now: Time,
                            saveFails: bool): (r: (SubmitResult, seq<Order>))
    requires freshId !in OrderRoute.OrderIds(store)
    ensures r.1 == store || (|r.1| == |store| + 1 && r.1[..|store|] == store)
    ensures r.0.sent.None? ==> r.1 == store
    ensures r.1 == store ==> r.0.cart == state && r.0.navigatedTo.None?
    ensures r.1 != store ==>
              && r.0.sent.Some?
              && r.0.cart == InitialState
              && r.0.navigatedTo == Some("/orders")
              && r.1[|store|].productIds == BookIds(state.cartItems)
              && r.1[|store|].name == form.name
              && r.1[|store|].email == form.email
              && r.1[|store|].phone == form.phone
              && r.1[|store|].location == Location(form.address, form.city, form.country, form.state, form.zipcode)
              && Some(r.1[|store|].totalPrice) == cast(totalPrice)
              && (ValidCart(state) ==> NoDuplicates(r.1[|store|].productIds))
    ensures r.1 != store ==> FormComplete(form) && ReachesSubmit(trigger, termsChecked)
    ensures FormComplete(form) && ReachesSubmit(trigger, termsChecked) && cast(totalPrice).Some? && !saveFails
            ==> r.1 != store
  {
    if !ReachesSubmit(trigger, termsChecked) || !FormComplete(form) then
      (PlaceOrder(trigger, termsChecked, form, state, totalPrice, false), store)
    else
      var payload := BuildOrder(state.cartItems, form, totalPrice);
      var (reply, store') := OrderRoute.CreateOrder(store, ToOrderInput(payload, cast), freshId, now, saveFails);
      var succeeded := reply.status == CREATED;
      assert succeeded ==> store'[..|store|] == store;
      (PlaceOrder(trigger, termsChecked, form, state, totalPrice, succeeded), store')
  }

  /** With the terms box unchecked, pressing Enter in a complete form still stores the order. */
  lemma EnterStoresOrderWithoutTerms(form: CheckoutForm, state: CartState, totalPrice: string,
                                     cast: string -> Option<Num>, store: seq<Order>, freshId: Id, now: Time)
    requires freshId !in OrderRoute.OrderIds(store)
    requires FormComplete(form) && cast(totalPrice).Some?
    ensures |CheckoutOnServer(EnterKey, false, form, state, totalPrice, cast, store, freshId, now, false).1| == |store| + 1
  {
  }

  /** The update route's body for the form's payload; `toNumber` is mongoose's cast of a text rating. */
  function PatchOf(p: UpdatePayload, toNumber: string -> Num): BookPatch {
    BookPatch(Set(p.title), Set(p.author), Set(p.description), Set(p.category), Set(p.trending),
              Set(p.coverImage), Set(p.oldPrice), Set(p.newPrice), Set(ToNumber(p.rating, toNumber)))
  }

  /**
   * Opening the edit form and saving it untouched rewrites the book as it was,
   * except that an `oldPrice` of 0 is now `null` and `updatedAt` is new.
   */
  lemma UntouchedEditKeepsBook(b: Book, toNumber: string -> Num, now: Time)
    ensures ApplyPatch(b, PatchOf(Submit(Populate(b), toNumber), toNumber), now)
         == b.(oldPrice := if b.oldPrice == Some(0.0) then None else b.oldPrice, updatedAt := now)
  {
    UntouchedResubmit(b, toNumber);
  }
}
