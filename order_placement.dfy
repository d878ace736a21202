/** What placing an order (`createOrder` in order-service/controllers/orderController.js)
  * guarantees, and what it does not: the order is created exactly when every stage
  * passes, its lines and total are copies of the product service's data, the stock is
  * decremented line by line after the order is stored, and nothing is rolled back. */
module OrderPlacement {
  import opened Outcomes
  import opened Text
  import opened ProductModel
  import opened OrderModel
  import opened ProductClient
  import opened OrderController
  import ProductStore

  /** Every line, checked as the `i`-th call from `call`, is in stock. */
  predicate AllInStock(products: map<ProductId, Product>, net: Network, call: nat, items: seq<Line>) {
    forall i :: 0 <= i < |items| ==> InStock(products, net, call + i, items[i])
  }

  /** Every line's product, read as the `i`-th call from `call`, comes back. */
  predicate AllReadable(products: map<ProductId, Product>, net: Network, call: nat, items: seq<Line>) {
    forall i :: 0 <= i < |items| ==> Readable(products, net, call + i, items[i])
  }

  /** The order line made of `line` passes the item validators. */
  predicate Orderable(products: map<ProductId, Product>, line: Line) {
    line.productId in products && products[line.productId].name != "" && line.quantity >= 1
  }

  /** Every line is orderable. */
  predicate AllOrderable(products: map<ProductId, Product>, items: seq<Line>) {
    forall i :: 0 <= i < |items| ==> Orderable(products, items[i])
  }

  /** A placement that created an order passed the guard and the stock check, which
    * made one call per line; the rest is the pricing stage from there. */
  lemma PlaceCreated(products: map<ProductId, Product>, net: Network, call: nat, q: OrderRequest)
    requires Place(products, net, call, q).created.Some?
    ensures HasRequiredFields(q)
    ensures AllInStock(products, net, call, q.items)
    ensures StockCheck(products, net, call, q.items).failure.None?
    ensures StockCheck(products, net, call, q.items).calls == call + |q.items|
    ensures Place(products, net, call, q) == Priced(products, net, StockCheck(products, net, call, q.items).calls, q)
  {
    StockCheckPassesIff(products, net, call, q.items);
  }

  /** A pricing stage that created an order read every product, one call per line;
    * the rest is `Order.create` on its lines and total. */
  lemma PricedCreated(products: map<ProductId, Product>, net: Network, call: nat, q: OrderRequest)
    requires q.shippingAddress.Some?
    requires Priced(products, net, call, q).created.Some?
    ensures Price(products, net, call, q.items).failure.None?
    ensures Price(products, net, call, q.items).calls == call + |q.items|
    ensures Priced(products, net, call, q) == Assemble(products, net, Price(products, net, call, q.items), q)
  {
    PriceSucceedsIff(products, net, call, q.items);
  }

  /** An assembly stage that created order `o` accepted the assembled document;
    * the rest is the inventory update. */
  lemma AssembleCreated(products: map<ProductId, Product>, net: Network, pr: Pricing, q: OrderRequest)
    requires q.shippingAddress.Some?
    requires Assemble(products, net, pr, q).created.Some?
    ensures NewOrder(q.customerId, pr.lines, pr.total, q.shippingAddress.value, q.paymentMethod, q.notes.GetOr(""))
         == Ok(Assemble(products, net, pr, q).created.value)
    ensures Assemble(products, net, pr, q) == Settle(products, net, pr.calls, q.items, Assemble(products, net, pr, q).created.value)
  {
  }

  /** A placement that created order `o` is, after two calls per line, the last stage
    * for `o`, and `o` is what `Order.create` made of the priced lines. */
  lemma PlaceSettles(products: map<ProductId, Product>, net: Network, call: nat, q: OrderRequest)
    requires Place(products, net, call, q).created.Some?
    ensures q.shippingAddress.Some?
    ensures Price(products, net, call + |q.items|, q.items).failure.None?
    ensures var pr := Price(products, net, call + |q.items|, q.items);
      && NewOrder(q.customerId, pr.lines, pr.total, q.shippingAddress.value, q.paymentMethod, q.notes.GetOr(""))
         == Ok(Place(products, net, call, q).created.value)
      && Place(products, net, call, q)
         == Settle(products, net, call + 2 * |q.items|, q.items, Place(products, net, call, q).created.value)
  {
    PlaceCreated(products, net, call, q);
    var c := StockCheck(products, net, call, q.items).calls;
    assert Priced(products, net, c, q).created.Some?;
    PricedCreated(products, net, c, q);
    var pr := Price(products, net, c, q.items);
    assert Assemble(products, net, pr, q).created.Some?;
    AssembleCreated(products, net, pr, q);
  }

  /** The priced lines pass the item validators exactly when every requested line is
    * orderable. */
  lemma PricedItemsValid(products: map<ProductId, Product>, net: Network, call: nat, items: seq<Line>)
    requires Price(products, net, call, items).failure.None?
    ensures var lines := Price(products, net, call, items).lines;
      (forall i :: 0 <= i < |lines| ==> ValidItem(lines[i]))
      <==> AllOrderable(products, items)
  {
    PriceLines(products, net, call, items);
  }

  /** From the pricing loop on, an order is created exactly when every product can be
    * read, every line is orderable and the rest of the document passes the schema. */
  lemma PricedCreatesIff(products: map<ProductId, Product>, net: Network, call: nat, q: OrderRequest)
    requires q.shippingAddress.Some?
    ensures Priced(products, net, call, q).created.Some? <==>
      && AllReadable(products, net, call, q.items)
      && AllOrderable(products, q.items)
      && q.customerId != ""
      && CompleteAddress(q.shippingAddress.value)
      && ParsePaymentMethod(q.paymentMethod).Some?
  {
    PriceSucceedsIff(products, net, call, q.items);
    if Price(products, net, call, q.items).failure.None? {
      PricedItemsValid(products, net, call, q.items);
    }
  }

  /** Past the guard, a placement whose lines are all in stock is the pricing stage
    * after one call per line, and any other creates nothing. */
  lemma PlaceChecked(products: map<ProductId, Product>, net: Network, call: nat, q: OrderRequest)
    requires HasRequiredFields(q)
    ensures AllInStock(products, net, call, q.items) ==>
      Place(products, net, call, q) == Priced(products, net, call + |q.items|, q)
    ensures !AllInStock(products, net, call, q.items) ==> Place(products, net, call, q).created.None?
  {
    StockCheckPassesIff(products, net, call, q.items);
  }

  /** An order is created exactly when the request has its required fields, every line
    * is in stock at the check, every product can be read again for pricing, and the
    * assembled order passes the schema. */
  lemma PlaceCreatesIff(products: map<ProductId, Product>, net: Network, call: nat, q: OrderRequest)
    ensures Place(products, net, call, q).created.Some? <==>
      && HasRequiredFields(q)
      && AllInStock(products, net, call, q.items)
      && AllReadable(products, net, call + |q.items|, q.items)
      && AllOrderable(products, q.items)
      && CompleteAddress(q.shippingAddress.value)
      && ParsePaymentMethod(q.paymentMethod).Some?
  {
    if HasRequiredFields(q) {
      PlaceChecked(products, net, call, q);
      PricedCreatesIff(products, net, call + |q.items|, q);
    }
  }

  /** A created order mirrors the request: one line per requested line, in order, with
    * the requested product and quantity (at least 1) and the name and price the
    * product had when it was read; its total is the sum over its own lines; it starts
    * `pending` with payment `pending`, and notes default to "". Every line passed the
    * stock check on its own. */
  lemma PlacedOrderContents(products: map<ProductId, Product>, net: Network, call: nat, q: OrderRequest)
    requires Place(products, net, call, q).created.Some?
    ensures var o := Place(products, net, call, q).created.value;
      && AllInStock(products, net, call, q.items)
      && |o.items| == |q.items|
      && (forall i :: 0 <= i < |q.items| ==>
            && q.items[i].productId in products
            && o.items[i] == PricedLine(products, q.items[i])
            && o.items[i].quantity >= 1)
      && o.totalAmount == Total(o.items)
      && o.customerId == q.customerId
      && q.shippingAddress == Some(o.shippingAddress)
      && PaymentMethodName(o.paymentMethod) == q.paymentMethod
      && o.notes == q.notes.GetOr("")
      && o.status == Pending
      && o.paymentStatus == PaymentPending
  {
    PlaceCreated(products, net, call, q);
    PlaceSettles(products, net, call, q);
    var pr := Price(products, net, call + |q.items|, q.items);
    PriceLines(products, net, call + |q.items|, q.items);
    var o := Place(products, net, call, q).created.value;
    assert o.items == pr.lines && o.totalAmount == pr.total;
    assert ValidOrder(o);
  }

  /** The last stage, once its inventory update succeeded on a valid table (and the
    * middleware answers refusals with an error status), took from each product the
    * quantities of all the lines naming it and made two calls per line. */
  lemma SettledInventory(products: map<ProductId, Product>, net: Network, call: nat, items: seq<Line>, o: Order)
    requires ProductStore.AllValid(products)
    requires !IsSuccess(net.errorStatus)
    requires Settle(products, net, call, items, o).reply.Ok?
    ensures Settle(products, net, call, items, o).calls == call + 2 * |items|
    ensures AppliedUpTo(products, Settle(products, net, call, items, o).products, items, |items|)
  {
    assert Decrement(products, net, call, items).failure.None?;
    DecrementSuccess(products, net, call, items);
    assert items[..|items|] == items;
  }

  /** A placement answered 201 on a valid product table (and a middleware that answers
    * refusals with an error status) took from each product the quantities of all the
    * lines naming it, changed nothing else, and made four calls per line. */
  lemma PlacedOrderInventory(products: map<ProductId, Product>, net: Network, call: nat, q: OrderRequest)
    requires ProductStore.AllValid(products)
    requires !IsSuccess(net.errorStatus)
    requires Place(products, net, call, q).reply.Ok?
    ensures Place(products, net, call, q).calls == call + 4 * |q.items|
    ensures Place(products, net, call, q).products.Keys == products.Keys
    ensures AppliedUpTo(products, Place(products, net, call, q).products, q.items, |q.items|)
  {
    PlaceSettles(products, net, call, q);
    SettledInventory(products, net, call + 2 * |q.items|, q.items, Place(products, net, call, q).created.value);
  }

  /** The last stage, when its inventory update failed on a valid table, applied
    * exactly the lines before line `FailedAt`, the one that failed. */
  lemma SettledPartially(products: map<ProductId, Product>, net: Network, call: nat, items: seq<Line>, o: Order)
    requires ProductStore.AllValid(products)
    requires !IsSuccess(net.errorStatus)
    requires Settle(products, net, call, items, o).reply.Err?
    ensures FailedAt(products, net, call, items) < |items|
    ensures AppliedUpTo(products, Settle(products, net, call, items, o).products, items, FailedAt(products, net, call, items))
  {
    assert Decrement(products, net, call, items).failure.Some?;
    DecrementFailureApplied(products, net, call, items);
  }

  /** A failed inventory update is answered 400, but the order stays stored and the
    * writes of the lines before the failing one stay applied: the product table is
    * the one after exactly the lines before the failing line. */
  lemma NoRollback(products: map<ProductId, Product>, net: Network, call: nat, q: OrderRequest)
    requires ProductStore.AllValid(products)
    requires !IsSuccess(net.errorStatus)
    requires Place(products, net, call, q).created.Some?
    requires Place(products, net, call, q).reply.Err?
    ensures FailedAt(products, net, call + 2 * |q.items|, q.items) < |q.items|
    ensures AppliedUpTo(products, Place(products, net, call, q).products, q.items,
                        FailedAt(products, net, call + 2 * |q.items|, q.items))
  {
    PlaceSettles(products, net, call, q);
    SettledPartially(products, net, call + 2 * |q.items|, q.items, Place(products, net, call, q).created.value);
  }

  // ---------------------------------------------------------------------------------
  // Worked cases: one product "Widget" at 999 cents with 5 in stock

  const WIDGET := Product("Widget", "A widget", 999, 5, "tools", "", true)
  const HOME := ShippingAddress("1 Main St", "Springfield", "IL", "62701", "US")
  const NET := Network(map[], 500)

  function WidgetOrder(items: seq<Line>): OrderRequest {
    OrderRequest("c1", items, Some(HOME), "credit_card", None)
  }

  /** Six widgets: 400 with the stock message for the widget ("Available: 5"), no
    * order, one call, and the stock untouched. */
  lemma SixWidgets()
    ensures Place(map[1 := WIDGET], NET, 0, WidgetOrder([Line(1, 6)]))
         == Placement(map[1 := WIDGET], 1, None, Err(Http(BAD_REQUEST, OutOfStock(WIDGET))))
  {
    var products := map[1 := WIDGET];
    var q := WidgetOrder([Line(1, 6)]);
    assert q.items[..0] == [];
    assert CheckLine(products, NET, 0, q.items[0]) == Check(1, Some(OutOfStock(WIDGET)));
    assert StockCheck(products, NET, 0, q.items) == Check(1, Some(OutOfStock(WIDGET)));
  }

  const THREE := Line(1, 3)
  const THREE_AT_999 := OrderItem(1, "Widget", 3, 999)
  const LEFT_TWO := map[1 := WIDGET.(inventory := 2)]

  /** The order `Order.create` makes of `lines` for customer "c1". */
  function WidgetPlaced(lines: seq<OrderItem>, total: int): Order {
    Order("c1", lines, total, HOME, Pending, CreditCard, PaymentPending, "")
  }

  /** Two lines of 3: each is compared with the 5 in stock on its own, so both pass. */
  lemma TwoThreesChecked()
    ensures StockCheck(map[1 := WIDGET], NET, 0, [THREE, THREE]) == Check(2, None)
  {
    assert [THREE, THREE][..1] == [THREE] && [THREE][..0] == [];
    assert StockCheck(map[1 := WIDGET], NET, 0, [THREE]) == Check(1, None);
  }

  lemma TwoThreesPriced()
    ensures Price(map[1 := WIDGET], NET, 2, [THREE, THREE])
         == Pricing(4, [THREE_AT_999, THREE_AT_999], 5994, None)
  {
    assert [THREE, THREE][..1] == [THREE] && [THREE][..0] == [];
    assert Price(map[1 := WIDGET], NET, 2, [THREE]) == Pricing(3, [THREE_AT_999], 2997, None);
    assert [THREE_AT_999] + [THREE_AT_999] == [THREE_AT_999, THREE_AT_999];
  }

  /** The first write leaves 2; the second asks for -1, which the schema refuses, and
    * the middleware answers that refusal with 500. */
  lemma TwoThreesDecremented()
    ensures Decrement(map[1 := WIDGET], NET, 4, [THREE, THREE])
         == Run(LEFT_TWO, 8, Some("Request failed with status code " + NatToString(500)))
  {
    assert [THREE, THREE][..1] == [THREE] && [THREE][..0] == [];
    InventoryPatchEffect(WIDGET, 2);
    assert Decrement(map[1 := WIDGET], NET, 4, [THREE]) == Run(LEFT_TWO, 6, None);
    InventoryPatchEffect(WIDGET.(inventory := 2), -1);
  }

  /** Two lines of 3 widgets: each passes the check on its own, so the order is stored;
    * the first write leaves 2, the second is refused, and the answer is 400 with the
    * order kept and 2 widgets left. */
  lemma RepeatedLinesOversell()
    ensures Place(map[1 := WIDGET], NET, 0, WidgetOrder([THREE, THREE]))
         == Placement(LEFT_TWO, 8, Some(WidgetPlaced([THREE_AT_999, THREE_AT_999], 5994)),
                      Err(Http(BAD_REQUEST, "Request failed with status code " + NatToString(500))))
  {
    TwoThreesChecked();
    TwoThreesPriced();
    TwoThreesDecremented();
  }

  /** The stages of one line of 3 against 5 in stock. */
  lemma OneThreeStages()
    ensures StockCheck(map[1 := WIDGET], NET, 0, [THREE]) == Check(1, None)
    ensures Price(map[1 := WIDGET], NET, 1, [THREE]) == Pricing(2, [THREE_AT_999], 2997, None)
    ensures Decrement(map[1 := WIDGET], NET, 2, [THREE]) == Run(LEFT_TWO, 4, None)
  {
    assert [THREE][..0] == [];
    InventoryPatchEffect(WIDGET, 2);
  }

  /** One line of 3 against 5 in stock: stored, answered 201, 2 left, four calls. */
  lemma OneThreePlaced()
    ensures Place(map[1 := WIDGET], NET, 0, WidgetOrder([THREE]))
         == Placement(LEFT_TWO, 4, Some(WidgetPlaced([THREE_AT_999], 2997)), Ok(WidgetPlaced([THREE_AT_999], 2997)))
  {
    OneThreeStages();
  }

  /** Two orders of 3 widgets, one after the other: the first is placed and leaves 2,
    * the second is refused at the stock check with the message for 2 available,
    * creates nothing and leaves the stock as the first left it. */
  lemma BackToBack()
    ensures var first := Place(map[1 := WIDGET], NET, 0, WidgetOrder([THREE]));
      && first.reply.Ok?
      && first.products == LEFT_TWO
      && Place(first.products, NET, first.calls, WidgetOrder([THREE]))
         == Refused(LEFT_TWO, 5, OutOfStock(WIDGET.(inventory := 2)))
  {
    OneThreePlaced();
    assert [THREE][..0] == [];
    assert StockCheck(LEFT_TWO, NET, 4, [THREE]) == Check(5, Some(OutOfStock(WIDGET.(inventory := 2))));
  }
}
