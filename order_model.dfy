/** The order document of the order service (order-service/models/Order.js): the
  * order and its embedded items and shipping address, the three enumerations with
  * their defaults, and the validators `Order.create` and `save()` run. */
module OrderModel {
  import opened Outcomes
  import opened Text
  import opened ProductModel

  type OrderId = nat

  datatype Status = Pending | Processing | Shipped | Delivered | Cancelled
  datatype PaymentMethod = CreditCard | DebitCard | Paypal | CashOnDelivery
  datatype PaymentStatus = PaymentPending | Completed | Failed | Refunded

  /** An order line: name and price are copies taken when the order is placed. */
  datatype OrderItem = OrderItem(productId: ProductId, name: string, quantity: int, price: int)

  datatype ShippingAddress = ShippingAddress(
    street: string, city: string, state: string, zipCode: string, country: string)

  datatype Order = Order(
    customerId: string,
    items: seq<OrderItem>,
    totalAmount: int,
    shippingAddress: ShippingAddress,
    status: Status,
    paymentMethod: PaymentMethod,
    paymentStatus: PaymentStatus,
    notes: string)

  // ---------------------------------------------------------------------------------
  // The enumerations and their spellings

  function StatusName(s: Status): string {
    match s
    case Pending => "pending"
    case Processing => "processing"
    case Shipped => "shipped"
    case Delivered => "delivered"
    case Cancelled => "cancelled"
  }

  /** The `enum` validator of `status`: the value it accepts for a spelling. */
  function ParseStatus(s: string): (r: Option<Status>)
    ensures r.Some? ==> StatusName(r.value) == s
  {
    if s == "pending" then Some(Pending)
    else if s == "processing" then Some(Processing)
    else if s == "shipped" then Some(Shipped)
    else if s == "delivered" then Some(Delivered)
    else if s == "cancelled" then Some(Cancelled)
    else None
  }

  /** Every status is accepted under its own spelling (with `ParseStatus`'s contract:
    * spellings and statuses correspond one to one). */
  lemma ParseStatusName(s: Status)
    ensures ParseStatus(StatusName(s)) == Some(s)
  {
  }

  function PaymentMethodName(m: PaymentMethod): string {
    match m
    case CreditCard => "credit_card"
    case DebitCard => "debit_card"
    case Paypal => "paypal"
    case CashOnDelivery => "cash_on_delivery"
  }

  function ParsePaymentMethod(s: string): (r: Option<PaymentMethod>)
    ensures r.Some? ==> PaymentMethodName(r.value) == s
  {
    if s == "credit_card" then Some(CreditCard)
    else if s == "debit_card" then Some(DebitCard)
    else if s == "paypal" then Some(Paypal)
    else if s == "cash_on_delivery" then Some(CashOnDelivery)
    else None
  }

  lemma ParsePaymentMethodName(m: PaymentMethod)
    ensures ParsePaymentMethod(PaymentMethodName(m)) == Some(m)
  {
  }

  function PaymentStatusName(s: PaymentStatus): string {
    match s
    case PaymentPending => "pending"
    case Completed => "completed"
    case Failed => "failed"
    case Refunded => "refunded"
  }

  function ParsePaymentStatus(s: string): (r: Option<PaymentStatus>)
    ensures r.Some? ==> PaymentStatusName(r.value) == s
  {
    if s == "pending" then Some(PaymentPending)
    else if s == "completed" then Some(Completed)
    else if s == "failed" then Some(Failed)
    else if s == "refunded" then Some(Refunded)
    else None
  }

  lemma ParsePaymentStatusName(s: PaymentStatus)
    ensures ParsePaymentStatus(PaymentStatusName(s)) == Some(s)
  {
  }

  /** Mongoose's message for a value outside an enumeration. */
  function EnumViolation(path: string, value: string): string {
    "Order validation failed: " + path + ": `" + value + "` is not a valid enum value for path `" + path + "`."
  }

  // ---------------------------------------------------------------------------------
  // Validity

  /** The item validators: a name is required and the quantity is at least 1. */
  predicate ValidItem(i: OrderItem) {
    i.name != "" && i.quantity >= 1
  }

  /** All five address fields are required. */
  predicate CompleteAddress(a: ShippingAddress) {
    a.street != "" && a.city != "" && a.state != "" && a.zipCode != "" && a.country != ""
  }

  /** What the schema guarantees of every stored order. */
  predicate ValidOrder(o: Order) {
    && o.customerId != ""
    && (forall i :: 0 <= i < |o.items| ==> ValidItem(o.items[i]))
    && CompleteAddress(o.shippingAddress)
  }

  /** The first item, from index `from` on, that fails its validators. */
  function FirstInvalidItem(items: seq<OrderItem>, from: nat): (r: Option<nat>)
    requires from <= |items|
    ensures r.None? <==> forall i :: from <= i < |items| ==> ValidItem(items[i])
    ensures r.Some? ==>
      && from <= r.value < |items| && !ValidItem(items[r.value])
      && forall i :: from <= i < r.value ==> ValidItem(items[i])
    decreases |items| - from
  {
    if from == |items| then None
    else if !ValidItem(items[from]) then Some(from)
    else FirstInvalidItem(items, from + 1)
  }

  function ItemViolation(items: seq<OrderItem>, k: nat): string
    requires k < |items|
  {
    var path := "items." + NatToString(k);
    if items[k].name == "" then "Order validation failed: " + path + ".name: Path `name` is required."
    else "Order validation failed: " + path + ".quantity: Quantity cannot be less than 1"
  }

  function AddressViolation(a: ShippingAddress): Option<string> {
    var missing := if a.street == "" then "street" else if a.city == "" then "city"
      else if a.state == "" then "state" else if a.zipCode == "" then "zipCode"
      else if a.country == "" then "country" else "";
    if missing == "" then None
    else Some("Order validation failed: shippingAddress." + missing + ": Path `shippingAddress." + missing + "` is required.")
  }

  /** `Order.create` for the document `createOrder` builds: the validators in schema
    * order, then the new order with status and payment status `pending`. */
  function NewOrder(customerId: string, items: seq<OrderItem>, totalAmount: int,
                    address: ShippingAddress, paymentMethod: string, notes: string)
    : (r: Result<Order, string>)
    ensures r.Ok? <==>
      && customerId != ""
      && (forall i :: 0 <= i < |items| ==> ValidItem(items[i]))
      && CompleteAddress(address)
      && ParsePaymentMethod(paymentMethod).Some?
    ensures r.Ok? ==> ValidOrder(r.value)
    ensures r.Ok? ==>
      && r.value.customerId == customerId && r.value.items == items
      && r.value.totalAmount == totalAmount && r.value.shippingAddress == address
      && r.value.notes == notes
      && PaymentMethodName(r.value.paymentMethod) == paymentMethod
      && r.value.status == Pending && r.value.paymentStatus == PaymentPending
  {
    if customerId == "" then Err("Order validation failed: customerId: Customer ID is required")
    else match FirstInvalidItem(items, 0)
      case Some(k) => Err(ItemViolation(items, k))
      case None =>
        match AddressViolation(address)
        case Some(m) => Err(m)
        case None =>
          match ParsePaymentMethod(paymentMethod)
          case None =>
            if paymentMethod == "" then Err("Order validation failed: paymentMethod: Path `paymentMethod` is required.")
            else Err(EnumViolation("paymentMethod", paymentMethod))
          case Some(m) => Ok(Order(customerId, items, totalAmount, address, Pending, m, PaymentPending, notes))
  }

  // ---------------------------------------------------------------------------------
  // The order total

  /** The amount of a sequence of order lines: the sum of price times quantity. */
  function Total(items: seq<OrderItem>): int
    decreases |items|
  {
    if items == [] then 0 else items[0].price * items[0].quantity + Total(items[1..])
  }

  /** Adding a line at the end adds its amount, as `createOrder`'s running total does. */
  lemma {:induction false} TotalAppend(items: seq<OrderItem>, x: OrderItem)
    ensures Total(items + [x]) == Total(items) + x.price * x.quantity
    decreases |items|
  {
    if items != [] {
      assert (items + [x])[1..] == items[1..] + [x];
      TotalAppend(items[1..], x);
    }
  }
}
