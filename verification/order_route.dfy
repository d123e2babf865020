/**
 * The order routes (backend/routes/order.route.js) over an in-memory Order
 * collection kept in insertion order: `POST /create-order` saves the body as
 * sent, `GET /:email` lists the orders with exactly that email.
 */
module OrderRoute {
  import opened Common
  import opened OrderModel

  datatype Body = OrderData(order: Order) | OrderList(orders: seq<Order>) | Message(text: string)

  datatype Reply = Reply(status: nat, success: bool, body: Body)

  const CreateErrorReply := Reply(SERVER_ERROR, false, Message("An error occurred while creating the order"))
  const NoOrdersReply := Reply(NOT_FOUND, false, Message("No orders found"))
  const FetchErrorReply := Reply(SERVER_ERROR, false, Message("Failed to fetch orders"))

  /** The `_id` of every stored order, in collection order. */
  function OrderIds(store: seq<Order>): seq<Id> {
    Map((o: Order) => o.id, store)
  }

  /** The collection's `_id` index: no two stored orders share an id. */
  predicate UniqueIds(store: seq<Order>) {
    NoDuplicates(OrderIds(store))
  }

  /**
   * `POST /create-order`. `freshId` and `now` stand for the generated `_id` and
   * the timestamp; `saveFails` is the store throwing. A body the schema rejects
   * and a failed save both end in the `catch` block with 500.
   */
  function CreateOrder(store: seq<Order>, body: OrderInput, freshId: Id, now: Time, saveFails: bool)
    : (r: (Reply, seq<Order>))
    requires freshId !in OrderIds(store)
    ensures UniqueIds(store) ==> UniqueIds(r.1)
    ensures r.0.status == CREATED <==> !saveFails && ValidOrderInput(body)
    ensures r.0.status == CREATED ==>
              SaveOrder(body, freshId, now).Some?
              && r.0 == Reply(CREATED, true, OrderData(SaveOrder(body, freshId, now).value))
              && r.1 == store + [SaveOrder(body, freshId, now).value]
    ensures r.0.status != CREATED ==> r.0 == CreateErrorReply && r.1 == store
  {
    var saved := SaveOrder(body, freshId, now);
    if saved.None? || saveFails then (CreateErrorReply, store)
    else
      var store' := store + [saved.value];
      assert OrderIds(store') == OrderIds(store) + [freshId] by {
        assert |OrderIds(store')| == |store| + 1;
      }
      (Reply(CREATED, true, OrderData(saved.value)), store')
  }

  /** `Order.find({ email })`: the orders with exactly that email, in collection order. */
  function WithEmail(store: seq<Order>, email: string): (r: seq<Order>)
    ensures forall o :: o in r <==> o in store && o.email == email
    ensures Subsequence(r, store)
  {
    FilterIsSubsequence((o: Order) => o.email == email, store);
    Filter((o: Order) => o.email == email, store)
  }

  /** JavaScript truthiness of an array value: every array, the empty one included, is truthy. */
  predicate ArrayTruthy<T>(xs: seq<T>) {
    true
  }

  /**
   * The replies a handler tries to send, in order: Express delivers the first;
   * later ones throw. `escaped` records an exception thrown by the `catch`
   * block's own send, which leaves the async handler as a rejected promise
   * that Express 4 does not catch.
   */
  datatype Sent = Sent(delivered: Reply, unsent: seq<Reply>, escaped: bool)

  /**
   * `GET /:email`. The `!orders` test guards a 404 that is not followed by
   * `return`; it can never fire because `find` always yields an array.
   */
  function GetOrdersByEmail(store: seq<Order>, email: string, findFails: bool): (r: Sent)
    ensures findFails ==> r == Sent(FetchErrorReply, [], false)
    ensures !findFails ==> r.delivered.status == OK && r.unsent == []
    ensures r.delivered.status != NOT_FOUND && !r.escaped
    ensures r.delivered.status == OK ==>
              r.delivered.body.OrderList?
              && (forall o :: o in r.delivered.body.orders <==> o in store && o.email == email)
              && Subsequence(r.delivered.body.orders, store)
  {
    if findFails then Sent(FetchErrorReply, [], false)
    else
      var orders := WithEmail(store, email);
      var found := Reply(OK, true, OrderList(orders));
      if !ArrayTruthy(orders) then
        // 404 is sent, the 200 after it throws, and the 500 of the catch block throws again
        Sent(NoOrdersReply, [found, FetchErrorReply], true)
      else Sent(found, [], false)
  }

  /** No matching order is answered with 200 and an empty list, not with 404. */
  lemma NoMatchIsEmptyList(store: seq<Order>, email: string)
    requires forall i :: 0 <= i < |store| ==> store[i].email != email
    ensures GetOrdersByEmail(store, email, false) == Sent(Reply(OK, true, OrderList([])), [], false)
  {
  }

  /** An order created for an email is listed by the next lookup of that email. */
  lemma {:induction false} CreatedOrderIsListed(store: seq<Order>, body: OrderInput, freshId: Id, now: Time)
    requires freshId !in OrderIds(store)
    requires ValidOrderInput(body)
    ensures var (reply, store') := CreateOrder(store, body, freshId, now, false);
            var listed := GetOrdersByEmail(store', body.email.value, false).delivered.body.orders;
            reply.status == CREATED && reply.body.order in listed
            && listed == WithEmail(store, body.email.value) + [reply.body.order]
  {
    var (reply, store') := CreateOrder(store, body, freshId, now, false);
    var p := (o: Order) => o.email == body.email.value;
    FilterAppend(p, store, [reply.body.order]);
  }
}
