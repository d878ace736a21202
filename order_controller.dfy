/** The order service's request handlers (order-service/controllers/orderController.js)
  * over its order collection, kept as a map from id to order. Placing an order runs,
  * in source order: the request guard, the stock check, the pricing loop (a second
  * read of every product), `Order.create`, and the inventory update (a third read and
  * a write per line). Nothing is undone when a later step fails. */
module OrderController {
  import opened Outcomes
  import opened ProductModel
  import opened OrderModel
  import opened OrderLifecycle
  import opened ProductClient
  import ProductStore

  /** The body of `POST /api/orders`. A missing string is "", missing items are []. */
  datatype OrderRequest = OrderRequest(
    customerId: string,
    items: seq<Line>,
    shippingAddress: Option<ShippingAddress>,
    paymentMethod: string,
    notes: Option<string>)

  const FIELDS_REQUIRED := "Please provide all required fields"

  /** The guard of `createOrder`. */
  predicate HasRequiredFields(q: OrderRequest) {
    q.customerId != "" && q.items != [] && q.shippingAddress.Some? && q.paymentMethod != ""
  }

  // ---------------------------------------------------------------------------------
  // The pricing loop

  /** How far the pricing loop got: the next call number, the order lines so far,
    * the running total, and the error, if a read failed. */
  datatype Pricing = Pricing(calls: nat, lines: seq<OrderItem>, total: int, failure: Option<string>)

  /** One line: read the product and copy its name and price into the order line. */
  function PriceLine(pr: Pricing, products: map<ProductId, Product>, net: Network, line: Line): Pricing {
    match Fetch(products, net, pr.calls, line.productId)
    case Err(m) => Pricing(pr.calls + 1, pr.lines, pr.total, Some(m))
    case Ok(p) =>
      Pricing(pr.calls + 1, pr.lines + [OrderItem(line.productId, p.name, line.quantity, p.price)],
              pr.total + p.price * line.quantity, None)
  }

  /** The loop of lines 55-66 over `items`, from call number `call`. */
  function Price(products: map<ProductId, Product>, net: Network, call: nat, items: seq<Line>): Pricing
    decreases |items|
  {
    if items == [] then Pricing(call, [], 0, None)
    else
      var before := Price(products, net, call, items[..|items| - 1]);
      if before.failure.Some? then before
      else PriceLine(before, products, net, items[|items| - 1])
  }

  lemma PriceStep(products: map<ProductId, Product>, net: Network, call: nat, items: seq<Line>, i: nat)
    requires i < |items|
    requires Price(products, net, call, items[..i]).failure.None?
    ensures Price(products, net, call, items[..i + 1])
         == PriceLine(Price(products, net, call, items[..i]), products, net, items[i])
  {
    PrefixOfPrefix(items, i);
  }

  lemma {:induction false} PriceAbsorbs(products: map<ProductId, Product>, net: Network, call: nat, items: seq<Line>, k: nat)
    requires k <= |items|
    requires Price(products, net, call, items[..k]).failure.Some?
    ensures Price(products, net, call, items) == Price(products, net, call, items[..k])
    decreases |items| - k
  {
    if k < |items| {
      PrefixOfPrefix(items, k);
      PriceAbsorbs(products, net, call, items, k + 1);
    } else {
      assert items[..k] == items;
    }
  }

  /** The order line the pricing loop makes of request line `line`. */
  function PricedLine(products: map<ProductId, Product>, line: Line): OrderItem
    requires line.productId in products
  {
    OrderItem(line.productId, products[line.productId].name, line.quantity, products[line.productId].price)
  }

  /** Line `line`'s product, read as call number `call`, comes back. */
  predicate Readable(products: map<ProductId, Product>, net: Network, call: nat, line: Line) {
    call !in net.outage && line.productId in products
  }

  /** The pricing loop succeeds exactly when every read goes through, and then it has
    * made one call per line. */
  lemma {:induction false} PriceSucceedsIff(products: map<ProductId, Product>, net: Network, call: nat, items: seq<Line>)
    ensures Price(products, net, call, items).failure.None? <==>
      forall i :: 0 <= i < |items| ==> Readable(products, net, call + i, items[i])
    ensures Price(products, net, call, items).failure.None? ==>
      Price(products, net, call, items).calls == call + |items|
    decreases |items|
  {
    if items != [] {
      var n := |items| - 1;
      var front := items[..n];
      PriceSucceedsIff(products, net, call, front);
      assert forall i :: 0 <= i < n ==> front[i] == items[i];
    }
  }

  /** A successful pricing loop has one order line per request line, in request order,
    * each keeping the request's product id and quantity and taking name and price from
    * the product, and its running total is the sum of price times quantity over them. */
  lemma {:induction false} PriceLines(products: map<ProductId, Product>, net: Network, call: nat, items: seq<Line>)
    requires Price(products, net, call, items).failure.None?
    ensures var pr := Price(products, net, call, items);
      && |pr.lines| == |items|
      && (forall i :: 0 <= i < |items| ==> items[i].productId in products && pr.lines[i] == PricedLine(products, items[i]))
      && pr.total == Total(pr.lines)
    decreases |items|
  {
    if items != [] {
      var n := |items| - 1;
      var front := items[..n];
      var before := Price(products, net, call, front);
      assert before.failure.None?;
      PriceLines(products, net, call, front);
      assert forall i :: 0 <= i < n ==> front[i] == items[i];
      var p := Fetch(products, net, before.calls, items[n].productId);
      assert p.Ok?;
      var pr := Price(products, net, call, items);
      assert pr.lines == before.lines + [PricedLine(products, items[n])];
      TotalAppend(before.lines, PricedLine(products, items[n]));
    }
  }

  // ---------------------------------------------------------------------------------
  // The placement saga

  /** The outcome of `createOrder`: the product table and call counter afterwards, the
    * order `Order.create` stored (if it got that far), and the reply. */
  datatype Placement = Placement(
    products: map<ProductId, Product>,
    calls: nat,
    created: Option<Order>,
    reply: Reply<Order>)

  /** A placement refused with 400 and message `m` before anything was stored. */
  function Refused(products: map<ProductId, Product>, calls: nat, m: string): Placement {
    Placement(products, calls, None, Err(Http(BAD_REQUEST, m)))
  }

  /** What every stage's outcome satisfies: every failure is a 400, a 201 carries the
    * stored order, nothing changes in the product table before an order is stored,
    * and no product appears or disappears. */
  predicate Coherent(products: map<ProductId, Product>, r: Placement) {
    && (r.reply.Err? ==> r.reply.error.Http? && r.reply.error.status == BAD_REQUEST)
    && (r.reply.Ok? ==> r.created == Some(r.reply.value))
    && (r.created.None? ==> r.products == products && r.reply.Err?)
    && r.products.Keys == products.Keys
  }

  /** `createOrder(q)` against the product table `products`, from call number `call`:
    * the request guard, then the stock check, then the later stages. Every failure is
    * answered 400, the guard's with its own message and every error thrown inside the
    * `try` with that error's message. */
  function Place(products: map<ProductId, Product>, net: Network, call: nat, q: OrderRequest): (r: Placement)
    ensures !HasRequiredFields(q) ==> r == Refused(products, call, FIELDS_REQUIRED)
    ensures Coherent(products, r)
    ensures r.created.Some? ==> ValidOrder(r.created.value)
  {
    if !HasRequiredFields(q) then Refused(products, call, FIELDS_REQUIRED)
    else
      var check := StockCheck(products, net, call, q.items);
      if check.failure.Some? then Refused(products, check.calls, check.failure.value)
      else Priced(products, net, check.calls, q)
  }

  /** The stages from the pricing loop on, from call number `call`. */
  function Priced(products: map<ProductId, Product>, net: Network, call: nat, q: OrderRequest): (r: Placement)
    requires q.shippingAddress.Some?
    ensures Coherent(products, r)
    ensures r.created.Some? ==> ValidOrder(r.created.value)
  {
    var pr := Price(products, net, call, q.items);
    if pr.failure.Some? then Refused(products, pr.calls, pr.failure.value)
    else Assemble(products, net, pr, q)
  }

  /** `Order.create` on the priced lines and total, then the last stage. */
  function Assemble(products: map<ProductId, Product>, net: Network, pr: Pricing, q: OrderRequest): (r: Placement)
    requires q.shippingAddress.Some?
    ensures Coherent(products, r)
    ensures r.created.Some? ==> ValidOrder(r.created.value)
  {
    match NewOrder(q.customerId, pr.lines, pr.total, q.shippingAddress.value, q.paymentMethod, q.notes.GetOr(""))
    case Err(m) => Refused(products, pr.calls, m)
    case Ok(o) => Settle(products, net, pr.calls, q.items, o)
  }

  /** The last stage, once order `o` is stored: the inventory update from call number
    * `call`. Its failure is answered 400 and the order stays stored. */
  function Settle(products: map<ProductId, Product>, net: Network, call: nat, items: seq<Line>, o: Order)
    : (r: Placement)
    ensures r.created == Some(o)
    ensures Coherent(products, r)
  {
    var run := Decrement(products, net, call, items);
    DecrementFrame(products, net, call, items);
    Placement(run.products, run.calls, Some(o),
              if run.failure.Some? then Err(Http(BAD_REQUEST, run.failure.value)) else Ok(o))
  }

  /** The reply of `cancelOrder`: `{ id, status: 'cancelled' }`. */
  datatype CancelReply = CancelReply(id: OrderId, status: string)

  // ---------------------------------------------------------------------------------
  // The order collection and its handlers

  class Orders {
    var orders: map<OrderId, Order>
    var nextId: nat
    const client: Client

    /** Every stored order passed the schema, the ids below `nextId` are the used ones,
      * and the product service's table is valid. */
    ghost predicate Valid()
      reads this, client, client.remote
    {
      && client.remote.Valid()
      && forall id :: id in orders ==> id < nextId && ValidOrder(orders[id])
    }

    constructor (client: Client)
      requires client.remote.Valid()
      ensures Valid() && this.client == client && orders == map[]
    {
      this.client := client;
      orders := map[];
      nextId := 0;
    }

    /** `getOrders`: every stored order. */
    method GetOrders() returns (r: map<OrderId, Order>)
      ensures r.Keys == orders.Keys
      ensures forall id :: id in orders ==> r[id] == orders[id]
    {
      r := orders;
    }

    /** `getOrderById`: 404 for an unknown id, otherwise the stored order. */
    method GetOrderById(id: OrderId) returns (r: Reply<Order>)
      ensures r.Ok? <==> id in orders
      ensures r.Ok? ==> r.value == orders[id]
      ensures r.Err? ==> r.error == Http(NOT_FOUND, ORDER_NOT_FOUND)
    {
      if id !in orders {
        return Err(Http(NOT_FOUND, ORDER_NOT_FOUND));
      }
      r := Ok(orders[id]);
    }

    /** `createOrder`: the product table, the call counter and the reply are those of
      * `Place`, and the order collection gains exactly the order `Place` created, under
      * a fresh id. */
    method CreateOrder(q: OrderRequest) returns (r: Reply<Order>)
      requires Valid()
      modifies this, client, client.remote
      ensures Valid()
      ensures old(nextId) !in old(orders)
      ensures var p := Place(old(client.remote.products), client.net, old(client.calls), q);
        && client.remote.products == p.products
        && client.calls == p.calls
        && r == p.reply
        && orders == (if p.created.Some? then old(orders)[old(nextId) := p.created.value] else old(orders))
    {
      if !HasRequiredFields(q) {
        return Err(Http(BAD_REQUEST, FIELDS_REQUIRED));
      }
      var shortage := client.CheckProductsStock(q.items);
      if shortage.Some? {
        return Err(Http(BAD_REQUEST, shortage.value));
      }
      var priced := PriceItems(q.items);
      if priced.failure.Some? {
        return Err(Http(BAD_REQUEST, priced.failure.value));
      }
      var created := NewOrder(q.customerId, priced.lines, priced.total, q.shippingAddress.value,
                              q.paymentMethod, q.notes.GetOr(""));
      if created.Err? {
        return Err(Http(BAD_REQUEST, created.error));
      }
      orders := orders[nextId := created.value];
      nextId := nextId + 1;
      var failure := client.UpdateProductInventory(q.items);
      if failure.Some? {
        return Err(Http(BAD_REQUEST, failure.value));
      }
      r := Ok(created.value);
    }

    /** The pricing loop of `createOrder` (lines 52-66): read each line's product again,
      * push an order line with its name and price, and add price times quantity to the
      * total. It reads the product table and changes nothing in it. */
    method PriceItems(items: seq<Line>) returns (r: Pricing)
      modifies client`calls
      ensures r == Price(client.remote.products, client.net, old(client.calls), items)
      ensures client.calls == r.calls
    {
      var totalAmount := 0;
      var orderItems: seq<OrderItem> := [];
      var i := 0;
      while i < |items|
        invariant 0 <= i <= |items|
        invariant Price(client.remote.products, client.net, old(client.calls), items[..i])
               == Pricing(client.calls, orderItems, totalAmount, None)
      {
        PriceStep(client.remote.products, client.net, old(client.calls), items, i);
        var product := client.GetProductById(items[i].productId);
        if product.Err? {
          PriceAbsorbs(client.remote.products, client.net, old(client.calls), items, i + 1);
          return Pricing(client.calls, orderItems, totalAmount, Some(product.error));
        }
        orderItems := orderItems + [OrderItem(items[i].productId, product.value.name, items[i].quantity, product.value.price)];
        totalAmount := totalAmount + product.value.price * items[i].quantity;
        i := i + 1;
      }
      assert items[..i] == items;
      r := Pricing(client.calls, orderItems, totalAmount, None);
    }

    /** `updateOrderStatus`: 400 without a status, 404 for an unknown id, otherwise the
      * rule `SetStatus`; a refused change leaves the order as it was. */
    method UpdateOrderStatus(id: OrderId, status: string) returns (r: Reply<Order>)
      requires Valid()
      modifies this
      ensures Valid() && nextId == old(nextId)
      ensures status == "" ==> r == Err(Http(BAD_REQUEST, STATUS_REQUIRED))
      ensures status != "" && id !in old(orders) ==> r == Err(Http(NOT_FOUND, ORDER_NOT_FOUND))
      ensures status != "" && id in old(orders) ==> r == SetStatus(old(orders)[id], status)
      ensures orders == if r.Ok? then old(orders)[id := r.value] else old(orders)
    {
      if status == "" {
        return Err(Http(BAD_REQUEST, STATUS_REQUIRED));
      }
      if id !in orders {
        return Err(Http(NOT_FOUND, ORDER_NOT_FOUND));
      }
      r := SetStatus(orders[id], status);
      if r.Ok? {
        TransitionsKeepValid(orders[id], status, "");
        orders := orders[id := r.value];
      }
    }

    /** `updatePaymentStatus`: 400 without a payment status, 404 for an unknown id,
      * otherwise the rule `SetPaymentStatus`, whatever the order's status. */
    method UpdatePaymentStatus(id: OrderId, paymentStatus: string) returns (r: Reply<Order>)
      requires Valid()
      modifies this
      ensures Valid() && nextId == old(nextId)
      ensures paymentStatus == "" ==> r == Err(Http(BAD_REQUEST, PAYMENT_STATUS_REQUIRED))
      ensures paymentStatus != "" && id !in old(orders) ==> r == Err(Http(NOT_FOUND, ORDER_NOT_FOUND))
      ensures paymentStatus != "" && id in old(orders) ==> r == SetPaymentStatus(old(orders)[id], paymentStatus)
      ensures orders == if r.Ok? then old(orders)[id := r.value] else old(orders)
    {
      if paymentStatus == "" {
        return Err(Http(BAD_REQUEST, PAYMENT_STATUS_REQUIRED));
      }
      if id !in orders {
        return Err(Http(NOT_FOUND, ORDER_NOT_FOUND));
      }
      r := SetPaymentStatus(orders[id], paymentStatus);
      if r.Ok? {
        TransitionsKeepValid(orders[id], "", paymentStatus);
        orders := orders[id := r.value];
      }
    }

    /** `cancelOrder`: 404 for an unknown id, 400 for a shipped or delivered order,
      * otherwise the status becomes `cancelled` (also when it already was) and the
      * reply is `{ id, status: 'cancelled' }`. */
    method CancelOrder(id: OrderId) returns (r: Reply<CancelReply>)
      requires Valid()
      modifies this
      ensures Valid() && nextId == old(nextId)
      ensures id !in old(orders) ==> r == Err(Http(NOT_FOUND, ORDER_NOT_FOUND)) && orders == old(orders)
      ensures id in old(orders) && Dispatched(old(orders)[id].status) ==>
        r == Err(Http(BAD_REQUEST, CannotCancel(old(orders)[id].status))) && orders == old(orders)
      ensures id in old(orders) && !Dispatched(old(orders)[id].status) ==>
        r == Ok(CancelReply(id, "cancelled")) && orders == old(orders)[id := old(orders)[id].(status := Cancelled)]
    {
      if id !in orders {
        return Err(Http(NOT_FOUND, ORDER_NOT_FOUND));
      }
      var cancelled := Cancel(orders[id]);
      if cancelled.Err? {
        return Err(cancelled.error);
      }
      orders := orders[id := cancelled.value];
      r := Ok(CancelReply(id, "cancelled"));
    }
  }
}
