/** The order service: prices and stores a new order after emptying the buyer's
    cart, moves an order through its statuses until it is delivered, records a
    payment result and deletes orders. */
module OrderService {
  import opened Common
  import opened CartModel
  import opened OrderModel

  /** The request payload of `createOrder`; any field may be missing. `user`
      and `status` are accepted but always overridden. */
  datatype OrderPayload = OrderPayload(
    user: Option<UserId>,
    items: Option<seq<OrderItem>>,
    shippingAddress: Option<AddressPayload>,
    paymentMethod: Option<string>,
    taxPrice: Option<real>,
    shippingPrice: Option<real>,
    status: Option<OrderStatus>)

  /** The shipping address as a payload carries it; any sub-field may be missing. */
  datatype AddressPayload = AddressPayload(
    street: Option<string>, city: Option<string>, state: Option<string>,
    postalCode: Option<string>, country: Option<string>, phone: Option<string>)

  /** `orderData.items?.reduce(...) || 0`. */
  function ItemsPrice(items: Option<seq<OrderItem>>): (p: real)
    ensures items.None? ==> p == 0.0
    ensures items.Some? ==> p == Total(items.value)
  {
    if items.None? then 0.0 else Total(items.value)
  }

  function OrZero(x: Option<real>): real {
    if x.Some? then x.value else 0.0
  }

  /** The address a document gets when the payload has none: every required
      field missing, the country at its default. */
  const MissingAddress := ShippingAddress("", "", "", "", "USA", "")

  function OrEmpty(s: Option<string>): string {
    if s.Some? then s.value else ""
  }

  /** The address sub-document Mongoose builds from the payload: a missing
      required string stays missing, a missing country takes the default "USA". */
  function AddressOf(a: Option<AddressPayload>): ShippingAddress {
    if a.None? then MissingAddress
    else
      var p := a.value;
      ShippingAddress(OrEmpty(p.street), OrEmpty(p.city), OrEmpty(p.state), OrEmpty(p.postalCode),
                      if p.country.Some? then p.country.value else "USA", OrEmpty(p.phone))
  }

  /** The schema accepts a payload's address exactly when the five required strings
      are there and not empty; the country may be left out, but not given empty. */
  lemma AddressAccepted(a: AddressPayload)
    ensures AddressValid(AddressOf(Some(a))) <==>
      && a.street.Some? && a.street.value != ""
      && a.city.Some? && a.city.value != ""
      && a.state.Some? && a.state.value != ""
      && a.postalCode.Some? && a.postalCode.value != ""
      && a.phone.Some? && a.phone.value != ""
      && (a.country.None? || a.country.value != "")
  {
  }

  /** No address at all fails the schema, whatever the rest of the payload. */
  lemma MissingAddressRefused(userId: UserId, payload: OrderPayload)
    requires payload.shippingAddress.None?
    ensures !OrderValid(Draft(userId, payload))
  {
  }

  /** The document `createOrder` builds before saving: the payload's fields, the
      caller as `user`, its own prices and status pending. */
  function Draft(userId: UserId, payload: OrderPayload): (o: Order)
    ensures o.user == userId && o.status == Pending
    ensures o.shippingAddress == AddressOf(payload.shippingAddress)
    ensures o.itemsPrice == ItemsPrice(payload.items)
    ensures o.totalPrice == ItemsPrice(payload.items) + OrZero(payload.taxPrice) + OrZero(payload.shippingPrice)
  {
    var itemsPrice := ItemsPrice(payload.items);
    Order(
      userId,
      if payload.items.Some? then payload.items.value else [],
      AddressOf(payload.shippingAddress),
      if payload.paymentMethod.Some? then payload.paymentMethod.value else "",
      None,
      itemsPrice,
      OrZero(payload.taxPrice),
      OrZero(payload.shippingPrice),
      itemsPrice + OrZero(payload.taxPrice) + OrZero(payload.shippingPrice),
      Pending,
      None,
      None)
  }

  /** The service prices the order exactly as the pre-save hook does, so saving
      the draft changes none of its prices. */
  lemma DraftAlreadyPriced(userId: UserId, payload: OrderPayload)
    ensures Priced(Draft(userId, payload))
    ensures PreSave(Draft(userId, payload)) == Draft(userId, payload)
  {
    if payload.items.None? {
      assert Total([]) == 0.0;
    }
  }

  /** `createOrder`. The cart is emptied before the order is saved, so it stays
      empty even when the order is rejected. */
  method CreateOrder(orders: OrderCollection, carts: CartCollection, userId: UserId, payload: OrderPayload)
    returns (r: Result<Order>, id: Id)
    requires orders.Valid() && carts.Valid()
    modifies orders, carts
    ensures orders.Valid() && carts.Valid()
    ensures userId in old(carts.carts) ==> carts.carts == old(carts.carts)[userId := EmptyCart(userId)]
    ensures userId !in old(carts.carts) ==> carts.carts == old(carts.carts)
    ensures OrderValid(Draft(userId, payload)) ==>
      && r == Ok(Draft(userId, payload))
      && id == old(orders.nextId) && id !in old(orders.orders)
      && orders.orders == old(orders.orders)[id := r.value]
    ensures !OrderValid(Draft(userId, payload)) ==>
      r == Err(SchemaViolation) && orders.orders == old(orders.orders)
  {
    var draft := Draft(userId, payload);
    var _ := carts.FindOneAndClear(userId);
    DraftAlreadyPriced(userId, payload);
    var inserted := orders.Insert(draft);
    if inserted.Err? {
      return Err(inserted.error), 0;
    }
    r, id := Ok(draft), inserted.value;
  }

  /** `updateOrderStatus`: a delivered order is final; any other order takes the
      new status, and a move to delivered stamps `deliveredAt`. */
  method UpdateOrderStatus(orders: OrderCollection, id: Id, status: OrderStatus, now: Time)
    returns (r: Result<Order>)
    requires orders.Valid()
    modifies orders
    ensures orders.Valid()
    ensures id !in old(orders.orders) ==> r == Err(OrderNotFound) && orders.orders == old(orders.orders)
    ensures id in old(orders.orders) && old(orders.orders)[id].status == Delivered ==>
      r == Err(OrderAlreadyDelivered) && orders.orders == old(orders.orders)
    ensures id in old(orders.orders) && old(orders.orders)[id].status != Delivered ==>
      var o := old(orders.orders)[id];
      var updated := o.(status := status, deliveredAt := if status == Delivered then Some(now) else o.deliveredAt);
      && r == Ok(updated)
      && orders.orders == old(orders.orders)[id := updated]
  {
    if id !in orders.orders {
      return Err(OrderNotFound);
    }
    var order := orders.orders[id];
    if order.status == Delivered {
      return Err(OrderAlreadyDelivered);
    }
    if status == Delivered {
      order := order.(deliveredAt := Some(now));
    }
    order := order.(status := status);
    r := orders.Update(id, order);
  }

  /** Once an order has been delivered, every later status update fails and leaves it as it is. */
  method DeliveredIsFinal(orders: OrderCollection, id: Id, first: OrderStatus, second: OrderStatus, now: Time, later: Time)
    returns (r1: Result<Order>, r2: Result<Order>)
    requires orders.Valid() && id in orders.orders && orders.orders[id].status != Delivered
    modifies orders
    ensures orders.Valid()
    ensures r1.Ok? && r1.value.status == first
    ensures r1.value.deliveredAt == (if first == Delivered then Some(now) else old(orders.orders)[id].deliveredAt)
    ensures first == Delivered ==>
      r2 == Err(OrderAlreadyDelivered) && id in orders.orders && orders.orders[id] == r1.value
    ensures first != Delivered ==> r2.Ok? && r2.value.status == second
  {
    r1 := UpdateOrderStatus(orders, id, first, now);
    r2 := UpdateOrderStatus(orders, id, second, later);
  }

  /** `updatePaymentResult`: records the gateway's answer and the payment time. */
  method UpdatePaymentResult(orders: OrderCollection, id: Id, paymentResult: PaymentResult, now: Time)
    returns (r: Result<Order>)
    requires orders.Valid()
    modifies orders
    ensures orders.Valid()
    ensures id !in old(orders.orders) ==> r == Err(OrderNotFound) && orders.orders == old(orders.orders)
    ensures id in old(orders.orders) ==>
      var o := old(orders.orders)[id].(paymentResult := Some(paymentResult), paidAt := Some(now));
      r == Ok(o) && orders.orders == old(orders.orders)[id := o]
  {
    var updated := orders.SetPaymentResult(id, paymentResult, now);
    if updated.None? {
      return Err(OrderNotFound);
    }
    r := Ok(updated.value);
  }

  method DeleteOrder(orders: OrderCollection, id: Id) returns (r: Result<Order>)
    requires orders.Valid()
    modifies orders
    ensures orders.Valid()
    ensures id !in old(orders.orders) ==> r == Err(OrderNotFound) && orders.orders == old(orders.orders)
    ensures id in old(orders.orders) ==>
      r == Ok(old(orders.orders)[id]) && orders.orders == old(orders.orders) - {id}
  {
    var deleted := orders.Delete(id);
    if deleted.None? {
      return Err(OrderNotFound);
    }
    r := Ok(deleted.value);
  }
}
