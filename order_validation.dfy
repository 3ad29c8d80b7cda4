/** The request-body schemas of the order routes, as predicates over bodies whose
    fields may be missing, and what a body that passes them becomes. */
module OrderValidation {
  import opened Common
  import opened CartModel
  import opened OrderModel
  import opened CartValidation
  import OrderService

  /** An order line obeys the same rules as a cart line in a request body. */
  predicate OrderItemValid(b: ItemBody) {
    CartItemValid(b)
  }

  /** The request's address: the same shape as the payload's. */
  type AddressBody = OrderService.AddressPayload

  /** `shippingAddressSchema`: every field but the country is required. */
  predicate AddressBodyValid(a: AddressBody) {
    a.street.Some? && a.city.Some? && a.state.Some? && a.postalCode.Some? && a.phone.Some?
  }

  /** The parsed address: the country falls back to "USA". */
  function ParseAddress(a: AddressBody): (r: ShippingAddress)
    requires AddressBodyValid(a)
    ensures a.country.None? ==> r.country == "USA"
    ensures a.country.Some? ==> r.country == a.country.value
    ensures r.street == a.street.value && r.city == a.city.value && r.state == a.state.value
    ensures r.postalCode == a.postalCode.value && r.phone == a.phone.value
  {
    ShippingAddress(a.street.value, a.city.value, a.state.value, a.postalCode.value,
                    if a.country.Some? then a.country.value else "USA", a.phone.value)
  }

  datatype CreateOrderBody = CreateOrderBody(
    items: Option<seq<ItemBody>>,
    shippingAddress: Option<AddressBody>,
    paymentMethod: Option<string>,
    taxPrice: Option<real>,
    shippingPrice: Option<real>)

  /** `createOrderZodSchema`. */
  predicate CreateOrderValid(b: CreateOrderBody) {
    && b.items.Some? && |b.items.value| > 0
    && (forall i :: 0 <= i < |b.items.value| ==> OrderItemValid(b.items.value[i]))
    && b.shippingAddress.Some? && AddressBodyValid(b.shippingAddress.value)
    && b.paymentMethod.Some? && PaymentMethodValid(b.paymentMethod.value)
    && b.taxPrice.Some? && b.taxPrice.value >= 0.0
    && b.shippingPrice.Some? && b.shippingPrice.value >= 0.0
  }

  /** The payload a body that passed the schema would make, were it handed to
      `createOrder`. The order route validates with this schema but then creates the
      order from a payment id, so this composition is hypothetical. */
  function ToPayload(b: CreateOrderBody): (p: OrderService.OrderPayload)
    requires CreateOrderValid(b)
    ensures p.items == Some(ToLines(b.items.value))
    ensures p.shippingAddress == b.shippingAddress
    ensures p.paymentMethod == b.paymentMethod && p.taxPrice == b.taxPrice && p.shippingPrice == b.shippingPrice
    ensures p.user.None? && p.status.None?
  {
    OrderService.OrderPayload(
      None, Some(ToLines(b.items.value)), b.shippingAddress,
      b.paymentMethod, b.taxPrice, b.shippingPrice, None)
  }

  /** Were a body that passes the schema made into an order by `createOrder`, the
      order would be priced at more than its tax and shipping, and it would be stored
      unless one of its address strings is empty: the schema accepts empty strings,
      the model's `required` check does not. */
  lemma CreateBodyStores(userId: UserId, b: CreateOrderBody)
    requires CreateOrderValid(b)
    ensures var o := OrderService.Draft(userId, ToPayload(b));
      && o.itemsPrice > 0.0
      && o.totalPrice >= o.itemsPrice
      && (OrderValid(o) <==> AddressValid(ParseAddress(b.shippingAddress.value)))
  {
    var lines := ToLines(b.items.value);
    assert OrderService.AddressOf(b.shippingAddress) == ParseAddress(b.shippingAddress.value);
    CartValidation.CreateBodyStores(CartValidation.CreateCartBody(Some(userId), b.items));
    assert LinesValid(lines);
  }

  /** The status strings `updateOrderStatusZodSchema` accepts, mapped to statuses. */
  function ParseOrderStatus(s: string): (r: Option<OrderStatus>)
    ensures r.Some? ==> StatusName(r.value) == s
    ensures r.None? <==> forall t: OrderStatus :: StatusName(t) != s
  {
    if s == "pending" then Some(Pending)
    else if s == "processing" then Some(Processing)
    else if s == "shipped" then Some(Shipped)
    else if s == "delivered" then Some(Delivered)
    else if s == "cancelled" then Some(Cancelled)
    else None
  }

  /** `updateOrderStatusZodSchema`: a status that names one of the five. */
  predicate UpdateStatusValid(status: Option<string>) {
    status.Some? && ParseOrderStatus(status.value).Some?
  }

  lemma StatusRoundTrip(t: OrderStatus)
    ensures ParseOrderStatus(StatusName(t)) == Some(t)
    ensures UpdateStatusValid(Some(StatusName(t)))
  {
  }
}
