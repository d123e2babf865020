/**
 * The Order schema (backend/models/order.model.js): customer details, the
 * nested `location` sub-document, the `productIds` references into the Book
 * collection, a numeric `totalPrice` and the `timestamps` option.
 */
module OrderModel {
  import opened Common

  datatype LocationInput = LocationInput(
    address: Option<string>,
    city: Option<string>,
    country: Option<string>,
    state: Option<string>,
    zipcode: Option<string>)

  /**
   * A request body handed to `new Order(...)`. A missing `location` leaves all
   * five nested paths missing; a missing `productIds` becomes the empty array
   * (the default of an array path); a `null` element stays `None`.
   */
  datatype OrderInput = OrderInput(
    name: Option<string>,
    email: Option<string>,
    location: Option<LocationInput>,
    phone: Option<string>,
    productIds: Option<seq<Option<Id>>>,
    totalPrice: Option<Num>)

  datatype Location = Location(address: string, city: string, country: string, state: string, zipcode: string)

  /** A stored location read back as the sub-document a body would carry. */
  function LocationFields(l: Location): LocationInput {
    LocationInput(Some(l.address), Some(l.city), Some(l.country), Some(l.state), Some(l.zipcode))
  }

  /** A saved order document. */
  datatype Order = Order(
    id: Id,
    name: string,
    email: string,
    location: Location,
    phone: string,
    productIds: seq<Id>,
    totalPrice: Num,
    createdAt: Time,
    updatedAt: Time)

  predicate ValidLocation(l: Option<LocationInput>) {
    l.Some? && Filled(l.value.address) && Filled(l.value.city) && Filled(l.value.country)
    && Filled(l.value.state) && Filled(l.value.zipcode)
  }

  /** The array a `productIds` path holds once defaults are applied. */
  function ProductIdsOf(o: OrderInput): seq<Option<Id>> {
    if o.productIds.Some? then o.productIds.value else []
  }

  /**
   * The schema's `required` rules. Each `productIds` element is required, but
   * nothing bounds the array's length, so an empty list passes.
   */
  predicate ValidOrderInput(o: OrderInput) {
    && Filled(o.name)
    && Filled(o.email)
    && ValidLocation(o.location)
    && Filled(o.phone)
    && (forall i :: 0 <= i < |ProductIdsOf(o)| ==> ProductIdsOf(o)[i].Some?)
    && o.totalPrice.Some?
  }

  function Unwrap(ids: seq<Option<Id>>): (r: seq<Id>)
    requires forall i :: 0 <= i < |ids| ==> ids[i].Some?
    ensures |r| == |ids|
    ensures forall i :: 0 <= i < |r| ==> ids[i] == Some(r[i])
  {
    if |ids| == 0 then [] else [ids[0].value] + Unwrap(ids[1..])
  }

  /**
   * `new Order(body).save()`: validation, then a document carrying the given
   * fresh id, both timestamps equal to `now`, and every path copied from the
   * body without recomputation.
   */
  function SaveOrder(body: OrderInput, id: Id, now: Time): (r: Option<Order>)
    ensures r.Some? <==> ValidOrderInput(body)
    ensures r.Some? ==> r.value.id == id && r.value.createdAt == now && r.value.updatedAt == now
    ensures r.Some? ==> Some(r.value.totalPrice) == body.totalPrice
    ensures r.Some? ==> |r.value.productIds| == |ProductIdsOf(body)|
                        && forall i :: 0 <= i < |r.value.productIds| ==> Some(r.value.productIds[i]) == ProductIdsOf(body)[i]
    ensures r.Some? ==> Some(r.value.name) == body.name && Some(r.value.email) == body.email
                        && Some(r.value.phone) == body.phone
    ensures r.Some? ==> body.location == Some(LocationFields(r.value.location))
  {
    if !ValidOrderInput(body) then None
    else
      var l := body.location.value;
      Some(Order(id, body.name.value, body.email.value,
                 Location(l.address.value, l.city.value, l.country.value, l.state.value, l.zipcode.value),
                 body.phone.value, Unwrap(ProductIdsOf(body)), body.totalPrice.value, now, now))
  }

  /** An order naming no book at all passes the schema. */
  lemma EmptyProductIdsAccepted(body: OrderInput, id: Id, now: Time)
    requires body.productIds == Some([]) || body.productIds.None?
    requires Filled(body.name) && Filled(body.email) && ValidLocation(body.location)
    requires Filled(body.phone) && body.totalPrice.Some?
    ensures SaveOrder(body, id, now).Some? && SaveOrder(body, id, now).value.productIds == []
  {
  }
}
