/**
 * The client-side cart (frontend/src/redux/features/cart/cartSlice.js): a list
 * of books in which no `_id` occurs twice, changed only by `addToCart`,
 * `removeFromCart` and `clearCart`. The alerts the reducers show are not modelled.
 */
module CartSlice {
  import opened Common
  import opened BookModel

  datatype CartState = CartState(cartItems: seq<Book>)

  const InitialState := CartState([])

  /** The slice's invariant: one entry per `_id`. */
  predicate ValidCart(c: CartState) {
    DistinctIds(c.cartItems)
  }

  /** The initial cart is empty, hence valid. */
  lemma InitialStateValid()
    ensures |InitialState.cartItems| == 0 && ValidCart(InitialState)
  {
  }

  /** `addToCart`: append the payload unless an item with its `_id` is already there. */
  function AddToCart(state: CartState, payload: Book): (r: CartState)
    ensures payload.id in BookIds(state.cartItems) ==> r == state
    ensures payload.id !in BookIds(state.cartItems) ==>
              r.cartItems == state.cartItems + [payload] && |r.cartItems| == |state.cartItems| + 1
    ensures payload.id in BookIds(r.cartItems)
    ensures ValidCart(state) ==> ValidCart(r)
  {
    var existingItem := FindById(state.cartItems, payload.id);
    if existingItem.None? then
      BookIdsAppend(state.cartItems, payload);
      CartState(state.cartItems + [payload])
    else state
  }

  /** `removeFromCart`: keep the items whose `_id` differs from the payload's. */
  function RemoveFromCart(state: CartState, payload: Book): (r: CartState)
    ensures payload.id !in BookIds(r.cartItems)
    ensures forall b :: b in r.cartItems <==> b in state.cartItems && b.id != payload.id
    ensures Subsequence(r.cartItems, state.cartItems)
    ensures ValidCart(state) ==> ValidCart(r)
  {
    CartState(WithoutId(state.cartItems, payload.id))
  }

  /** `clearCart`: the empty cart, whatever the state. */
  function ClearCart(state: CartState): (r: CartState)
    ensures r == InitialState && ValidCart(r)
  {
    CartState([])
  }

  /** Adding twice is adding once. */
  lemma AddIdempotent(state: CartState, payload: Book)
    ensures AddToCart(AddToCart(state, payload), payload) == AddToCart(state, payload)
  {
  }

  /** Removing an `_id` the cart does not hold changes nothing. */
  lemma RemoveAbsentIsNoOp(state: CartState, payload: Book)
    requires payload.id !in BookIds(state.cartItems)
    ensures RemoveFromCart(state, payload) == state
  {
    WithoutAbsentId(state.cartItems, payload.id);
  }

  /** Adding a book the cart does not hold and removing it again restores the cart. */
  lemma {:induction false} AddThenRemoveRestores(state: CartState, payload: Book)
    requires payload.id !in BookIds(state.cartItems)
    ensures RemoveFromCart(AddToCart(state, payload), payload) == state
  {
    var keep := (b: Book) => b.id != payload.id;
    FilterAppend(keep, state.cartItems, [payload]);
    assert Filter(keep, [payload]) == [];
    WithoutAbsentId(state.cartItems, payload.id);
  }

  /** The three actions a cart can receive. */
  datatype Action = Add(item: Book) | Remove(item: Book) | Clear

  /** The slice's reducer. */
  function Reduce(state: CartState, action: Action): CartState {
    match action
    case Add(b) => AddToCart(state, b)
    case Remove(b) => RemoveFromCart(state, b)
    case Clear => ClearCart(state)
  }

  /** Replaying actions from the initial state. */
  function Replay(actions: seq<Action>): CartState
  {
    if |actions| == 0 then InitialState else Reduce(Replay(actions[..|actions| - 1]), actions[|actions| - 1])
  }

  /** Every cart reachable from the initial state holds each `_id` at most once. */
  lemma {:induction false} ReachableCartsValid(actions: seq<Action>)
    ensures ValidCart(Replay(actions))
  {
    if |actions| > 0 {
      ReachableCartsValid(actions[..|actions| - 1]);
    }
  }
}
