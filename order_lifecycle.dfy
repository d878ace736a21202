/** The status and payment rules of the order handlers
  * (order-service/controllers/orderController.js: `updateOrderStatus`,
  * `updatePaymentStatus`, `cancelOrder`), as functions on a found order. Only a move
  * into `cancelled` is guarded; every other status can be set from every status. */
module OrderLifecycle {
  import opened Outcomes
  import opened OrderModel

  const ORDER_NOT_FOUND := "Order not found"
  const STATUS_REQUIRED := "Please provide a status"
  const PAYMENT_STATUS_REQUIRED := "Please provide a payment status"

  /** Shipped and delivered orders can no longer be cancelled. */
  predicate Dispatched(s: Status) {
    s == Shipped || s == Delivered
  }

  function CannotCancel(s: Status): string {
    "Cannot cancel an order that is already " + StatusName(s)
  }

  /** `updateOrderStatus` once the order is found: the cancellation guard on the
    * requested spelling, then the assignment, which `save()` validates against the enum. */
  function SetStatus(o: Order, target: string): (r: Reply<Order>)
    ensures r.Ok? <==>
      ParseStatus(target).Some? && !(ParseStatus(target).value == Cancelled && Dispatched(o.status))
    ensures r.Ok? ==> r.value == o.(status := ParseStatus(target).value)
    ensures ParseStatus(target) == Some(Cancelled) && Dispatched(o.status) ==>
      r == Err(Http(BAD_REQUEST, CannotCancel(o.status)))
    ensures ParseStatus(target).None? ==> r == Err(Schema(EnumViolation("status", target)))
  {
    if target == "cancelled" && Dispatched(o.status) then Err(Http(BAD_REQUEST, CannotCancel(o.status)))
    else match ParseStatus(target)
      case None => Err(Schema(EnumViolation("status", target)))
      case Some(s) => Ok(o.(status := s))
  }

  /** `updatePaymentStatus` once the order is found: any payment status, whatever the
    * order's status, validated against the enum by `save()`. */
  function SetPaymentStatus(o: Order, target: string): (r: Reply<Order>)
    ensures r.Ok? <==> ParsePaymentStatus(target).Some?
    ensures r.Ok? ==> r.value == o.(paymentStatus := ParsePaymentStatus(target).value)
  {
    match ParsePaymentStatus(target)
    case None => Err(Schema(EnumViolation("paymentStatus", target)))
    case Some(s) => Ok(o.(paymentStatus := s))
  }

  /** `cancelOrder` once the order is found. */
  function Cancel(o: Order): (r: Reply<Order>)
    ensures r.Ok? <==> !Dispatched(o.status)
    ensures r.Ok? ==> r.value == o.(status := Cancelled)
    ensures r.Err? ==> r == Err(Http(BAD_REQUEST, CannotCancel(o.status)))
  {
    if Dispatched(o.status) then Err(Http(BAD_REQUEST, CannotCancel(o.status)))
    else Ok(o.(status := Cancelled))
  }

  /** Cancelling is setting the status to `cancelled`: the same guard, message and result. */
  lemma CancelIsSetStatusCancelled(o: Order)
    ensures Cancel(o) == SetStatus(o, "cancelled")
  {
    ParseStatusName(Cancelled);
  }

  /** Cancelling twice succeeds and changes nothing the second time. */
  lemma CancelIdempotent(o: Order)
    requires Cancel(o).Ok?
    ensures Cancel(Cancel(o).value) == Cancel(o)
  {
  }

  /** Any status other than `cancelled` can be set from any status, including out of
    * `delivered` and out of `cancelled`, and only the status changes. */
  lemma StatusUnordered(o: Order, s: Status)
    requires s != Cancelled
    ensures SetStatus(o, StatusName(s)) == Ok(o.(status := s))
  {
    ParseStatusName(s);
  }

  /** The payment status is independent of the status: setting one and then the other
    * gives the same order in either order, and neither guard looks at the other field. */
  lemma PaymentIndependentOfStatus(o: Order, status: string, payment: string)
    requires SetStatus(o, status).Ok? && SetPaymentStatus(o, payment).Ok?
    ensures SetPaymentStatus(SetStatus(o, status).value, payment).Ok?
    ensures SetStatus(SetPaymentStatus(o, payment).value, status).Ok?
    ensures SetPaymentStatus(SetStatus(o, status).value, payment).value
         == SetStatus(SetPaymentStatus(o, payment).value, status).value
  {
  }

  /** The rules change only status fields, so a valid order stays valid. */
  lemma TransitionsKeepValid(o: Order, status: string, payment: string)
    requires ValidOrder(o)
    ensures SetStatus(o, status).Ok? ==> ValidOrder(SetStatus(o, status).value)
    ensures SetPaymentStatus(o, payment).Ok? ==> ValidOrder(SetPaymentStatus(o, payment).value)
    ensures Cancel(o).Ok? ==> ValidOrder(Cancel(o).value)
  {
  }
}
