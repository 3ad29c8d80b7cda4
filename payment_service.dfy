/** The payment collection and service: payments are recorded against an order
    the paying user owns, and a completed payment moves its order to processing. */
module PaymentService {
  import opened Common
  import opened OrderModel

  datatype PaymentStatus = PaymentPending | Completed | Failed | Refunded

  /** A payment document. `amount` is None when the request supplied none. */
  datatype Payment = Payment(
    order: Id,
    user: UserId,
    paymentMethod: string,
    amount: Option<real>,
    status: PaymentStatus,
    transactionId: Option<string>)

  /** The payment schema's validators: a method from the enum and an amount. */
  predicate PaymentValid(p: Payment) {
    PaymentMethodValid(p.paymentMethod) && p.amount.Some?
  }

  /** The Mongoose `Payment` model. */
  class PaymentCollection {
    var payments: map<Id, Payment>
    var nextId: Id

    ghost predicate Valid()
      reads this
    {
      forall id :: id in payments ==> id < nextId && PaymentValid(payments[id])
    }

    constructor ()
      ensures Valid() && payments == map[] && nextId == 0
    {
      payments := map[];
      nextId := 0;
    }

    /** `Payment.create(...)`: stored under a fresh id when the validators accept it. */
    method Create(p: Payment) returns (r: Result<Id>)
      requires Valid()
      modifies this
      ensures Valid()
      ensures PaymentValid(p) ==>
        && r == Ok(old(nextId)) && r.value !in old(payments)
        && payments == old(payments)[r.value := p]
      ensures !PaymentValid(p) ==> r == Err(SchemaViolation) && payments == old(payments)
    {
      if PaymentValid(p) {
        payments := payments[nextId := p];
        r := Ok(nextId);
        nextId := nextId + 1;
      } else {
        r := Err(SchemaViolation);
      }
    }

    /** `Payment.findByIdAndUpdate(id, update, {new: true})`: writes the fields
        without validators. */
    method Replace(id: Id, p: Payment) returns (r: Option<Payment>)
      requires Valid()
      requires id in payments ==> PaymentValid(p)
      modifies this
      ensures Valid()
      ensures id in old(payments) ==> r == Some(p) && payments == old(payments)[id := p]
      ensures id !in old(payments) ==> r == None && payments == old(payments)
    {
      if id in payments {
        payments := payments[id := p];
        r := Some(p);
      } else {
        r := None;
      }
    }

    method Delete(id: Id) returns (r: Option<Payment>)
      requires Valid()
      modifies this
      ensures Valid()
      ensures id in old(payments) ==> r == Some(old(payments)[id]) && payments == old(payments) - {id}
      ensures id !in old(payments) ==> r == None && payments == old(payments)
    {
      if id in payments {
        r := Some(payments[id]);
        payments := payments - {id};
      } else {
        r := None;
      }
    }
  }

  /** `Order.findOne({_id, user})`: the order exists and was placed by that user. */
  predicate OwnsOrder(orders: map<Id, Order>, orderId: Id, userId: UserId) {
    orderId in orders && orders[orderId].user == userId
  }

  /** The payload of `createPayment`; its `user` and `status` are overridden. */
  datatype PaymentPayload = PaymentPayload(
    order: Id,
    paymentMethod: string,
    amount: Option<real>,
    transactionId: Option<string>)

  function NewPayment(userId: UserId, payload: PaymentPayload): (p: Payment)
    ensures p.user == userId && p.status == PaymentPending && p.order == payload.order
  {
    Payment(payload.order, userId, payload.paymentMethod, payload.amount, PaymentPending, payload.transactionId)
  }

  method CreatePayment(payments: PaymentCollection, orders: OrderCollection, userId: UserId, payload: PaymentPayload)
    returns (r: Result<Id>)
    requires payments.Valid()
    modifies payments
    ensures payments.Valid()
    ensures !OwnsOrder(orders.orders, payload.order, userId) ==>
      r == Err(OrderNotFound) && payments.payments == old(payments.payments)
    ensures OwnsOrder(orders.orders, payload.order, userId) && PaymentValid(NewPayment(userId, payload)) ==>
      && r == Ok(old(payments.nextId))
      && payments.payments == old(payments.payments)[r.value := NewPayment(userId, payload)]
    ensures OwnsOrder(orders.orders, payload.order, userId) && !PaymentValid(NewPayment(userId, payload)) ==>
      r == Err(SchemaViolation) && payments.payments == old(payments.payments)
  {
    if !OwnsOrder(orders.orders, payload.order, userId) {
      return Err(OrderNotFound);
    }
    r := payments.Create(NewPayment(userId, payload));
  }

  /** `...(transactionId && { transactionId })`: only a non-empty id is written. */
  function WithStatus(p: Payment, status: PaymentStatus, transactionId: Option<string>): (q: Payment)
    ensures q.status == status
    ensures transactionId.Some? && transactionId.value != "" ==> q.transactionId == transactionId
    ensures transactionId.None? || transactionId.value == "" ==> q.transactionId == p.transactionId
    ensures q.(status := p.status, transactionId := p.transactionId) == p
  {
    if transactionId.Some? && transactionId.value != "" then p.(status := status, transactionId := transactionId)
    else p.(status := status)
  }

  /** `updatePaymentStatus`: writes the status (and a supplied transaction id);
      a completed payment sets its order to processing and stamps `paidAt`, and
      does nothing to the orders when that order no longer exists. */
  method UpdatePaymentStatus(payments: PaymentCollection, orders: OrderCollection, id: Id,
                             status: PaymentStatus, transactionId: Option<string>, now: Time)
    returns (r: Result<Payment>)
    requires payments.Valid() && orders.Valid()
    modifies payments, orders
    ensures payments.Valid() && orders.Valid()
    ensures id !in old(payments.payments) ==>
      && r == Err(PaymentNotFound)
      && payments.payments == old(payments.payments)
      && orders.orders == old(orders.orders)
    ensures id in old(payments.payments) ==>
      var p := WithStatus(old(payments.payments)[id], status, transactionId);
      && r == Ok(p)
      && payments.payments == old(payments.payments)[id := p]
      && (status == Completed && p.order in old(orders.orders) ==>
            orders.orders == old(orders.orders)[p.order := old(orders.orders)[p.order].(status := Processing, paidAt := Some(now))])
      && (status != Completed || p.order !in old(orders.orders) ==> orders.orders == old(orders.orders))
  {
    var updated: Option<Payment> := None;
    if id in payments.payments {
      updated := payments.Replace(id, WithStatus(payments.payments[id], status, transactionId));
    }
    if updated.None? {
      return Err(PaymentNotFound);
    }
    var payment := updated.value;
    if status == Completed {
      var _ := orders.SetPaid(payment.order, Processing, now);
    }
    r := Ok(payment);
  }

  /** The payment `processPayment` records: the order's total as the amount, and
      completed or failed by the gateway's answer. */
  function ProcessedPayment(order: Order, orderId: Id, userId: UserId, paymentMethod: string,
                            successful: bool, transactionId: string): (p: Payment)
    ensures p.amount == Some(order.totalPrice) && p.order == orderId && p.user == userId
    ensures p.status == Completed <==> successful
    ensures p.status == Failed <==> !successful
    ensures p.transactionId == Some(transactionId)
  {
    Payment(orderId, userId, paymentMethod, Some(order.totalPrice), if successful then Completed else Failed,
            Some(transactionId))
  }

  /** `processPayment`, with the gateway's answer and the generated transaction id as inputs. */
  method ProcessPayment(payments: PaymentCollection, orders: OrderCollection, userId: UserId, orderId: Id,
                        paymentMethod: string, successful: bool, transactionId: string, now: Time)
    returns (r: Result<Id>)
    requires payments.Valid() && orders.Valid()
    modifies payments, orders
    ensures payments.Valid() && orders.Valid()
    ensures !OwnsOrder(old(orders.orders), orderId, userId) ==>
      && r == Err(OrderNotFound)
      && payments.payments == old(payments.payments)
      && orders.orders == old(orders.orders)
    ensures OwnsOrder(old(orders.orders), orderId, userId) && !PaymentMethodValid(paymentMethod) ==>
      && r == Err(SchemaViolation)
      && payments.payments == old(payments.payments)
      && orders.orders == old(orders.orders)
    ensures OwnsOrder(old(orders.orders), orderId, userId) && PaymentMethodValid(paymentMethod) ==>
      var order := old(orders.orders)[orderId];
      && r == Ok(old(payments.nextId))
      && payments.payments == old(payments.payments)[r.value :=
           ProcessedPayment(order, orderId, userId, paymentMethod, successful, transactionId)]
      && (successful ==>
            orders.orders == old(orders.orders)[orderId := order.(status := Processing, paidAt := Some(now))])
      && (!successful ==> orders.orders == old(orders.orders))
  {
    if !OwnsOrder(orders.orders, orderId, userId) {
      return Err(OrderNotFound);
    }
    var order := orders.orders[orderId];
    r := payments.Create(ProcessedPayment(order, orderId, userId, paymentMethod, successful, transactionId));
    if r.Err? {
      return;
    }
    if successful {
      var _ := orders.SetPaid(orderId, Processing, now);
    }
  }

  method DeletePayment(payments: PaymentCollection, id: Id) returns (r: Result<Payment>)
    requires payments.Valid()
    modifies payments
    ensures payments.Valid()
    ensures id !in old(payments.payments) ==> r == Err(PaymentNotFound) && payments.payments == old(payments.payments)
    ensures id in old(payments.payments) ==>
      r == Ok(old(payments.payments)[id]) && payments.payments == old(payments.payments) - {id}
  {
    var deleted := payments.Delete(id);
    if deleted.None? {
      return Err(PaymentNotFound);
    }
    r := Ok(deleted.value);
  }
}
