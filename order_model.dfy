/** The order collection: each order's price fields are recomputed by the
    pre-save hook, and the schema constrains its lines, address and payment method. */
module OrderModel {
  import opened Common
  import opened CartModel

  datatype OrderStatus = Pending | Processing | Shipped | Delivered | Cancelled

  function StatusName(s: OrderStatus): string {
    match s
    case Pending => "pending"
    case Processing => "processing"
    case Shipped => "shipped"
    case Delivered => "delivered"
    case Cancelled => "cancelled"
  }

  /** An order line has exactly the stored fields and constraints of a cart line
      (product, type "tire" or "wheel", quantity at least 1, price), so the cart's
      line type, validity predicate and fold are shared. */
  type OrderItem = CartLine

  /** The stored address; a required field the payload left out is the empty
      string, and a missing country has already taken its default (`OrderService.AddressOf`). */
  datatype ShippingAddress = ShippingAddress(
    street: string, city: string, state: string, postalCode: string, country: string, phone: string)

  datatype PaymentResult = PaymentResult(id: string, status: string, updateTime: string, emailAddress: string)

  datatype Order = Order(
    user: UserId,
    items: seq<OrderItem>,
    shippingAddress: ShippingAddress,
    paymentMethod: string,
    paymentResult: Option<PaymentResult>,
    itemsPrice: real,
    taxPrice: real,
    shippingPrice: real,
    totalPrice: real,
    status: OrderStatus,
    paidAt: Option<Time>,
    deliveredAt: Option<Time>)

  /** A `required` string path rejects the empty string. */
  predicate AddressValid(a: ShippingAddress) {
    a.street != "" && a.city != "" && a.state != "" && a.postalCode != "" && a.country != "" && a.phone != ""
  }

  predicate PaymentMethodValid(m: string) {
    m == "paypal" || m == "credit_card"
  }

  /** The validators of the order schema. */
  predicate OrderValid(o: Order) {
    && LinesValid(o.items)
    && AddressValid(o.shippingAddress)
    && PaymentMethodValid(o.paymentMethod)
  }

  /** The pre-save hook: `itemsPrice` is the fold over the lines, and `totalPrice`
      adds tax and shipping to it; every other field is kept. */
  function PreSave(o: Order): (p: Order)
    ensures p.itemsPrice == Total(o.items)
    ensures p.totalPrice == Total(o.items) + o.taxPrice + o.shippingPrice
    ensures p.(itemsPrice := o.itemsPrice, totalPrice := o.totalPrice) == o
  {
    var itemsPrice := Total(o.items);
    o.(itemsPrice := itemsPrice, totalPrice := itemsPrice + o.taxPrice + o.shippingPrice)
  }

  /** The prices a saved order carries. */
  predicate Priced(o: Order) {
    o.itemsPrice == Total(o.items) && o.totalPrice == o.itemsPrice + o.taxPrice + o.shippingPrice
  }

  /** The hook is idempotent: saving an order twice prices it as saving it once. */
  lemma PreSaveIdempotent(o: Order)
    ensures Priced(PreSave(o))
    ensures PreSave(PreSave(o)) == PreSave(o)
  {
  }

  /** An order whose lines can be reordered freely keeps its prices. */
  lemma PreSaveOrderIndependent(o: Order, items: seq<OrderItem>)
    requires multiset(items) == multiset(o.items)
    ensures PreSave(o.(items := items)).totalPrice == PreSave(o).totalPrice
  {
    TotalPermutation(items, o.items);
  }

  /** The Mongoose `Order` model: orders by id, ids handed out in increasing order. */
  class OrderCollection {
    var orders: map<Id, Order>
    var nextId: Id

    ghost predicate Valid()
      reads this
    {
      forall id :: id in orders ==> id < nextId && OrderValid(orders[id]) && Priced(orders[id])
    }

    constructor ()
      ensures Valid() && orders == map[] && nextId == 0
    {
      orders := map[];
      nextId := 0;
    }

    /** `new Order(...).save()`: the validators accept the document or reject it
        and nothing is stored; an accepted one is priced by the hook and stored under
        a fresh id. The price fields are only `required`, which their defaults meet,
        so running the validators first does not change the outcome. */
    method Insert(o: Order) returns (r: Result<Id>)
      requires Valid()
      modifies this
      ensures Valid()
      ensures OrderValid(o) ==>
        && r == Ok(old(nextId))
        && orders == old(orders)[r.value := PreSave(o)]
        && r.value !in old(orders)
      ensures !OrderValid(o) ==> r == Err(SchemaViolation) && orders == old(orders)
    {
      if OrderValid(o) {
        orders := orders[nextId := PreSave(o)];
        r := Ok(nextId);
        nextId := nextId + 1;
      } else {
        r := Err(SchemaViolation);
      }
    }

    /** `order.save()` on a stored order. */
    method Update(id: Id, o: Order) returns (r: Result<Order>)
      requires Valid()
      requires id in orders
      modifies this
      ensures Valid()
      ensures OrderValid(o) ==> r == Ok(PreSave(o)) && orders == old(orders)[id := PreSave(o)]
      ensures !OrderValid(o) ==> r == Err(SchemaViolation) && orders == old(orders)
    {
      if OrderValid(o) {
        orders := orders[id := PreSave(o)];
        r := Ok(PreSave(o));
      } else {
        r := Err(SchemaViolation);
      }
    }

    /** `Order.findByIdAndUpdate(id, {paymentResult, paidAt}, {new: true})`: writes the
        two fields directly, without the hook or the validators. */
    method SetPaymentResult(id: Id, pr: PaymentResult, now: Time) returns (r: Option<Order>)
      requires Valid()
      modifies this
      ensures Valid()
      ensures id in old(orders) ==>
        var o := old(orders)[id].(paymentResult := Some(pr), paidAt := Some(now));
        r == Some(o) && orders == old(orders)[id := o]
      ensures id !in old(orders) ==> r == None && orders == old(orders)
    {
      if id in orders {
        var o := orders[id].(paymentResult := Some(pr), paidAt := Some(now));
        orders := orders[id := o];
        r := Some(o);
      } else {
        r := None;
      }
    }

    /** `Order.findByIdAndUpdate(id, {status, paidAt})`, as the payment service issues it. */
    method SetPaid(id: Id, status: OrderStatus, now: Time) returns (r: Option<Order>)
      requires Valid()
      modifies this
      ensures Valid()
      ensures id in old(orders) ==>
        var o := old(orders)[id].(status := status, paidAt := Some(now));
        r == Some(o) && orders == old(orders)[id := o]
      ensures id !in old(orders) ==> r == None && orders == old(orders)
    {
      if id in orders {
        var o := orders[id].(status := status, paidAt := Some(now));
        orders := orders[id := o];
        r := Some(o);
      } else {
        r := None;
      }
    }

    /** `Order.findByIdAndDelete(id)`: the removed order, or None. */
    method Delete(id: Id) returns (r: Option<Order>)
      requires Valid()
      modifies this
      ensures Valid()
      ensures id in old(orders) ==> r == Some(old(orders)[id]) && orders == old(orders) - {id}
      ensures id !in old(orders) ==> r == None && orders == old(orders)
    {
      if id in orders {
        r := Some(orders[id]);
        orders := orders - {id};
      } else {
        r := None;
      }
    }
  }
}
