/** The order service's client of the product service (order-service/services/productService.js).
  * The HTTP calls become reads and writes of the product service's store; what the
  * network does to each call is a parameter (`Network`). Calls are numbered from 0 in
  * the order the client makes them. */
module ProductClient {
  import opened Outcomes
  import opened Text
  import opened ProductModel
  import ProductStore

  /** A call that got no HTTP response. */
  datatype Transport =
      /** The request went out and nothing came back (axios sets `error.request`). */
    | NoResponse(reason: string)
      /** The request could not be sent at all. */
    | SetupFailure(reason: string)

  /** What the order service does not control: the calls that fail in transport, by
    * number, and the HTTP status the product service's error middleware (not part of
    * this model) answers for an error its handler threw without setting a status. */
  datatype Network = Network(outage: map<nat, Transport>, errorStatus: nat)

  /** A rejected axios call. */
  datatype AxiosError =
    | Response(status: nat, statusText: string, message: string)
    | NoReply(reason: string)
    | Setup(reason: string)

  /** One requested order line: `{ productId, quantity }`. */
  datatype Line = Line(productId: ProductId, quantity: int)

  predicate IsSuccess(status: nat) {
    200 <= status < 300
  }

  function StatusText(status: nat): string {
    if status == 400 then "Bad Request"
    else if status == 404 then "Not Found"
    else if status == 500 then "Internal Server Error"
    else ""
  }

  /** The status the product service answers for a handler failure. */
  function StatusOf(net: Network, f: Failure): nat {
    if f.Http? then f.status else net.errorStatus
  }

  function TransportError(t: Transport): AxiosError {
    match t
    case NoResponse(m) => NoReply(m)
    case SetupFailure(m) => Setup(m)
  }

  /** The three ways a fetch can fail, as `getProductById` tells them apart. */
  datatype FetchFailure = ServiceError | NotResponding | RequestError

  function KindOf(e: AxiosError): FetchFailure {
    match e
    case Response(_, _, _) => ServiceError
    case NoReply(_) => NotResponding
    case Setup(_) => RequestError
  }

  const SERVICE_ERROR := "Product service error: "
  const NOT_RESPONDING := "Product service is not responding"
  const REQUEST_ERROR := "Error: "

  /** The error `getProductById` throws for a rejected call: the remote message
    * (or the status text when there is none) for a non-2xx response, a fixed message
    * when there was no response, and the local message otherwise. */
  function Classify(e: AxiosError): string {
    match e
    case Response(_, text, m) => SERVICE_ERROR + (if m != "" then m else text)
    case NoReply(_) => NOT_RESPONDING
    case Setup(m) => REQUEST_ERROR + m
  }

  /** Reads the class of a failure back from its classified message. */
  function KindOfMessage(m: string): FetchFailure {
    if |m| >= |SERVICE_ERROR| && m[..|SERVICE_ERROR|] == SERVICE_ERROR then ServiceError
    else if m == NOT_RESPONDING then NotResponding
    else RequestError
  }

  /** The classification loses nothing of the class: the three messages never collide. */
  lemma ClassifyKeepsKind(e: AxiosError)
    ensures KindOfMessage(Classify(e)) == KindOf(e)
  {
    var m := Classify(e);
    match e
    case Response(_, text, msg) =>
      assert m[..|SERVICE_ERROR|] == SERVICE_ERROR;
    case NoReply(_) =>
      assert m[16] != SERVICE_ERROR[16];
    case Setup(msg) =>
      assert m[0] != SERVICE_ERROR[0];
      assert m != NOT_RESPONDING by { assert m[0] != NOT_RESPONDING[0]; }
  }

  /** axios's own message for a rejected call (what `updateProductInventory` rethrows). */
  function AxiosMessage(e: AxiosError): string {
    match e
    case Response(s, _, _) => "Request failed with status code " + NatToString(s)
    case NoReply(m) => m
    case Setup(m) => m
  }

  /** `getProductById(id)` as call number `call`, against the product table `products`. */
  function Fetch(products: map<ProductId, Product>, net: Network, call: nat, id: ProductId)
    : (r: Result<Product, string>)
    ensures r.Ok? <==> call !in net.outage && id in products
    ensures r.Ok? ==> r.value == products[id]
  {
    if call in net.outage then Err(Classify(TransportError(net.outage[call])))
    else match ProductStore.Find(products, id)
      case Ok(p) => Ok(p)
      case Err(f) => Err(Classify(Response(f.status, StatusText(f.status), f.message)))
  }

  /** The write `{ inventory: v }` to product `id` as call number `call`: the product
    * table afterwards and the raw axios error, if the call was rejected. A refusal the
    * middleware answers with a 2xx status is not a rejection. */
  function Put(products: map<ProductId, Product>, net: Network, call: nat, id: ProductId, v: int)
    : (r: (map<ProductId, Product>, Option<string>))
  {
    if call in net.outage then (products, Some(AxiosMessage(TransportError(net.outage[call]))))
    else
      var u := ProductStore.Update(products, id, InventoryPatch(v));
      if u.1.Ok? || IsSuccess(StatusOf(net, u.1.error)) then (u.0, None)
      else
        var s := StatusOf(net, u.1.error);
        (u.0, Some(AxiosMessage(Response(s, StatusText(s), u.1.error.message))))
  }

  /** A write keeps the set of products and the schema's invariant, and touches no
    * product but the one it names. */
  lemma PutFrame(products: map<ProductId, Product>, net: Network, call: nat, id: ProductId, v: int)
    ensures Put(products, net, call, id, v).0.Keys == products.Keys
    ensures forall k :: k in products && k != id ==> Put(products, net, call, id, v).0[k] == products[k]
    ensures ProductStore.AllValid(products) ==> ProductStore.AllValid(Put(products, net, call, id, v).0)
  {
    ProductStore.UpdateFrame(products, id, InventoryPatch(v));
    if ProductStore.AllValid(products) {
      ProductStore.UpdateKeepsValid(products, id, InventoryPatch(v));
    }
  }

  /** The error `checkProductsStock` throws for a product short of stock. */
  function OutOfStock(p: Product): string {
    "Product " + p.name + " is out of stock. Available: " + IntToString(p.inventory)
  }

  // ---------------------------------------------------------------------------------
  // checkProductsStock

  /** How far a stock check got: the next call number and the error it threw, if any. */
  datatype Check = Check(calls: nat, failure: Option<string>)

  /** Checking one line, as call number `call`. */
  function CheckLine(products: map<ProductId, Product>, net: Network, call: nat, line: Line): Check {
    match Fetch(products, net, call, line.productId)
    case Err(m) => Check(call + 1, Some(m))
    case Ok(p) => if p.inventory < line.quantity then Check(call + 1, Some(OutOfStock(p))) else Check(call + 1, None)
  }

  /** `checkProductsStock(items)` from call number `call`: the lines in input order,
    * stopping at the first that throws. */
  function StockCheck(products: map<ProductId, Product>, net: Network, call: nat, items: seq<Line>): Check
    decreases |items|
  {
    if items == [] then Check(call, None)
    else
      var before := StockCheck(products, net, call, items[..|items| - 1]);
      if before.failure.Some? then before
      else CheckLine(products, net, before.calls, items[|items| - 1])
  }

  /** Line `line`, checked as call number `call`, passes: the fetch goes through and the
    * product has at least the requested quantity. */
  predicate InStock(products: map<ProductId, Product>, net: Network, call: nat, line: Line) {
    call !in net.outage && line.productId in products && products[line.productId].inventory >= line.quantity
  }

  lemma CheckLinePasses(products: map<ProductId, Product>, net: Network, call: nat, line: Line)
    ensures CheckLine(products, net, call, line).calls == call + 1
    ensures CheckLine(products, net, call, line).failure.None? <==> InStock(products, net, call, line)
  {
  }

  lemma PrefixOfPrefix<T>(s: seq<T>, k: nat)
    requires k < |s|
    ensures s[..k + 1][..k] == s[..k] && s[..k + 1][k] == s[k]
  {
  }

  /** The check succeeds exactly when every line, as the `i`-th call, is in stock; each
    * line is compared with its own product's inventory, so quantities of repeated
    * products are not added up. A successful check makes one call per line. */
  lemma {:induction false} StockCheckPassesIff(products: map<ProductId, Product>, net: Network, call: nat, items: seq<Line>)
    ensures var c := StockCheck(products, net, call, items);
      c.failure.None? <==> forall i :: 0 <= i < |items| ==> InStock(products, net, call + i, items[i])
    ensures StockCheck(products, net, call, items).failure.None? ==>
      StockCheck(products, net, call, items).calls == call + |items|
    decreases |items|
  {
    if items != [] {
      var n := |items| - 1;
      var front := items[..n];
      StockCheckPassesIff(products, net, call, front);
      var before := StockCheck(products, net, call, front);
      CheckLinePasses(products, net, before.calls, items[n]);
      assert forall i :: 0 <= i < n ==> front[i] == items[i];
    }
  }

  /** The position of the line at which a check stopped. */
  function ShortAt(products: map<ProductId, Product>, net: Network, call: nat, items: seq<Line>): nat
    decreases |items|
  {
    if items == [] then 0
    else if StockCheck(products, net, call, items[..|items| - 1]).failure.Some? then
      ShortAt(products, net, call, items[..|items| - 1])
    else |items| - 1
  }

  /** A failed check stopped at the first line, in input order, that was not in stock:
    * every earlier line passed, the error is that line's, and no later line was fetched. */
  lemma {:induction false} StockCheckStopsAtFirstShortage(products: map<ProductId, Product>, net: Network, call: nat, items: seq<Line>)
    requires StockCheck(products, net, call, items).failure.Some?
    ensures var k := ShortAt(products, net, call, items);
      && k < |items|
      && (forall i :: 0 <= i < k ==> InStock(products, net, call + i, items[i]))
      && !InStock(products, net, call + k, items[k])
      && StockCheck(products, net, call, items) == CheckLine(products, net, call + k, items[k])
    decreases |items|
  {
    var n := |items| - 1;
    var front := items[..n];
    var before := StockCheck(products, net, call, front);
    assert forall i :: 0 <= i < n ==> front[i] == items[i];
    if before.failure.Some? {
      StockCheckStopsAtFirstShortage(products, net, call, front);
      assert ShortAt(products, net, call, items) == ShortAt(products, net, call, front);
      assert StockCheck(products, net, call, items) == before;
    } else {
      StockCheckPassesIff(products, net, call, front);
      CheckLinePasses(products, net, call + n, items[n]);
      assert ShortAt(products, net, call, items) == n;
    }
  }

  /** Once a check has failed on a prefix, the rest of the lines change nothing. */
  lemma {:induction false} StockCheckAbsorbs(products: map<ProductId, Product>, net: Network, call: nat, items: seq<Line>, k: nat)
    requires k <= |items|
    requires StockCheck(products, net, call, items[..k]).failure.Some?
    ensures StockCheck(products, net, call, items) == StockCheck(products, net, call, items[..k])
    decreases |items| - k
  {
    if k < |items| {
      PrefixOfPrefix(items, k);
      StockCheckAbsorbs(products, net, call, items, k + 1);
    } else {
      assert items[..k] == items;
    }
  }

  // ---------------------------------------------------------------------------------
  // updateProductInventory

  /** How far an inventory update got: the product table, the next call number and the
    * error it threw, if any. */
  datatype Run = Run(products: map<ProductId, Product>, calls: nat, failure: Option<string>)

  /** One line: read the product afresh, then write its inventory minus the quantity. */
  function DecrementLine(run: Run, net: Network, line: Line): Run {
    match Fetch(run.products, net, run.calls, line.productId)
    case Err(m) => Run(run.products, run.calls + 1, Some(m))
    case Ok(p) =>
      var w := Put(run.products, net, run.calls + 1, line.productId, p.inventory - line.quantity);
      Run(w.0, run.calls + 2, w.1)
  }

  /** `updateProductInventory(items)` on the table `products` from call number `call`. */
  function Decrement(products: map<ProductId, Product>, net: Network, call: nat, items: seq<Line>): Run
    decreases |items|
  {
    if items == [] then Run(products, call, None)
    else
      var before := Decrement(products, net, call, items[..|items| - 1]);
      if before.failure.Some? then before
      else DecrementLine(before, net, items[|items| - 1])
  }

  /** The quantities of the lines that name `id`, added up. */
  function QuantityFor(items: seq<Line>, id: ProductId): int
    decreases |items|
  {
    if items == [] then 0
    else QuantityFor(items[..|items| - 1], id)
         + (if items[|items| - 1].productId == id then items[|items| - 1].quantity else 0)
  }

  /** The products the lines name. */
  function Named(items: seq<Line>): set<ProductId> {
    set i | 0 <= i < |items| :: items[i].productId
  }

  /** Once an update has failed on a prefix, the rest of the lines change nothing. */
  lemma {:induction false} DecrementAbsorbs(products: map<ProductId, Product>, net: Network, call: nat, items: seq<Line>, k: nat)
    requires k <= |items|
    requires Decrement(products, net, call, items[..k]).failure.Some?
    ensures Decrement(products, net, call, items) == Decrement(products, net, call, items[..k])
    decreases |items| - k
  {
    if k < |items| {
      PrefixOfPrefix(items, k);
      DecrementAbsorbs(products, net, call, items, k + 1);
    } else {
      assert items[..k] == items;
    }
  }

  /** One more line of an update that has not failed yet. */
  lemma DecrementStep(products: map<ProductId, Product>, net: Network, call: nat, items: seq<Line>, i: nat)
    requires i < |items|
    requires Decrement(products, net, call, items[..i]).failure.None?
    ensures Decrement(products, net, call, items[..i + 1])
         == DecrementLine(Decrement(products, net, call, items[..i]), net, items[i])
  {
    PrefixOfPrefix(items, i);
  }

  /** Whatever happens, an update keeps the set of products and the schema's invariant,
    * and it touches no product that no line names. */
  lemma {:induction false} DecrementFrame(products: map<ProductId, Product>, net: Network, call: nat, items: seq<Line>)
    ensures var r := Decrement(products, net, call, items);
      && r.products.Keys == products.Keys
      && (ProductStore.AllValid(products) ==> ProductStore.AllValid(r.products))
      && forall id :: id in products && id !in Named(items) ==> r.products[id] == products[id]
    decreases |items|
  {
    if items != [] {
      var n := |items| - 1;
      var front := items[..n];
      DecrementFrame(products, net, call, front);
      var before := Decrement(products, net, call, front);
      if before.failure.None? {
        DecrementLineFrame(before, net, items[n]);
      }
      assert Named(front) <= Named(items) by {
        forall id | id in Named(front) ensures id in Named(items) {
          var i :| 0 <= i < n && front[i].productId == id;
          assert items[i].productId == id;
        }
      }
      assert items[n].productId in Named(items);
    }
  }

  /** One line of an update keeps the set of products and the schema's invariant, and
    * touches no product but the one it names. */
  lemma DecrementLineFrame(run: Run, net: Network, line: Line)
    ensures DecrementLine(run, net, line).products.Keys == run.products.Keys
    ensures forall k :: k in run.products && k != line.productId ==>
      DecrementLine(run, net, line).products[k] == run.products[k]
    ensures ProductStore.AllValid(run.products) ==> ProductStore.AllValid(DecrementLine(run, net, line).products)
  {
    var f := Fetch(run.products, net, run.calls, line.productId);
    if f.Ok? {
      var w := Put(run.products, net, run.calls + 1, line.productId, f.value.inventory - line.quantity);
      PutFrame(run.products, net, run.calls + 1, line.productId, f.value.inventory - line.quantity);
      assert DecrementLine(run, net, line).products == w.0;
    } else {
      assert DecrementLine(run, net, line).products == run.products;
    }
  }

  /** One line of an update that went through on a valid table: the named product's
    * inventory drops by the line's quantity, from the value just read. */
  lemma DecrementLineSuccess(run: Run, net: Network, line: Line)
    requires ProductStore.AllValid(run.products)
    requires !IsSuccess(net.errorStatus)
    requires run.failure.None?
    requires DecrementLine(run, net, line).failure.None?
    ensures line.productId in run.products
    ensures var p := run.products[line.productId];
      DecrementLine(run, net, line) == Run(run.products[line.productId := p.(inventory := p.inventory - line.quantity)], run.calls + 2, None)
  {
    var p := run.products[line.productId];
    InventoryPatchEffect(p, p.inventory - line.quantity);
  }

  /** A failed line of an update changed no product: a failed read writes nothing and a
    * rejected write was refused. */
  lemma DecrementLineFailure(run: Run, net: Network, line: Line)
    requires DecrementLine(run, net, line).failure.Some?
    ensures DecrementLine(run, net, line).products == run.products
  {
  }

  /** A successful update of a valid table leaves each product with its inventory
    * minus the quantities of all the lines naming it, and every other field as it was:
    * each write starts from a fresh read, so a later line for the same product sees
    * the earlier decrement. (When the middleware answers refusals with 2xx, a refused
    * write looks like success, so that case is excluded.) */
  lemma {:induction false} DecrementSuccess(products: map<ProductId, Product>, net: Network, call: nat, items: seq<Line>)
    requires ProductStore.AllValid(products)
    requires !IsSuccess(net.errorStatus)
    requires Decrement(products, net, call, items).failure.None?
    ensures var r := Decrement(products, net, call, items);
      && r.calls == call + 2 * |items|
      && r.products.Keys == products.Keys
      && forall id :: id in products ==>
           r.products[id] == products[id].(inventory := products[id].inventory - QuantityFor(items, id))
    decreases |items|
  {
    if items != [] {
      var n := |items| - 1;
      var front := items[..n];
      var line := items[n];
      var before := Decrement(products, net, call, front);
      assert before.failure.None?;
      DecrementSuccess(products, net, call, front);
      DecrementFrame(products, net, call, front);
      DecrementLineSuccess(before, net, line);
      var r := Decrement(products, net, call, items);
      assert r == DecrementLine(before, net, line);
      forall id | id in products
        ensures r.products[id] == products[id].(inventory := products[id].inventory - QuantityFor(items, id))
      {
        assert QuantityFor(items, id) == QuantityFor(front, id) + (if line.productId == id then line.quantity else 0);
      }
    }
  }

  /** The number of lines an update applied before the one that failed. */
  function FailedAt(products: map<ProductId, Product>, net: Network, call: nat, items: seq<Line>): nat
    decreases |items|
  {
    if items == [] then 0
    else if Decrement(products, net, call, items[..|items| - 1]).failure.Some? then
      FailedAt(products, net, call, items[..|items| - 1])
    else |items| - 1
  }

  /** The table after exactly the lines before `k` were applied: each product has lost
    * the quantities of those lines naming it, and nothing else changed. */
  predicate AppliedUpTo(before: map<ProductId, Product>, after: map<ProductId, Product>, items: seq<Line>, k: nat)
    requires k <= |items|
  {
    forall id :: id in before ==>
      id in after && after[id] == before[id].(inventory := before[id].inventory - QuantityFor(items[..k], id))
  }

  /** A failed update of a valid table applied exactly the lines before the failing
    * one; the failing line wrote nothing and the later lines were not attempted. */
  lemma {:induction false} DecrementFailureApplied(products: map<ProductId, Product>, net: Network, call: nat, items: seq<Line>)
    requires ProductStore.AllValid(products)
    requires !IsSuccess(net.errorStatus)
    requires Decrement(products, net, call, items).failure.Some?
    ensures FailedAt(products, net, call, items) < |items|
    ensures AppliedUpTo(products, Decrement(products, net, call, items).products, items, FailedAt(products, net, call, items))
    decreases |items|
  {
    var n := |items| - 1;
    var front := items[..n];
    var before := Decrement(products, net, call, front);
    if before.failure.Some? {
      DecrementFailureApplied(products, net, call, front);
      var k := FailedAt(products, net, call, front);
      assert items[..k] == front[..k];
    } else {
      DecrementSuccess(products, net, call, front);
      DecrementLineFailure(before, net, items[n]);
      assert AppliedUpTo(products, before.products, items, n);
    }
  }

  // ---------------------------------------------------------------------------------
  // The client object

  /** The client; `calls` counts the calls it has made. */
  class Client {
    const remote: ProductStore.Store
    const net: Network
    var calls: nat

    constructor (remote: ProductStore.Store, net: Network)
      ensures this.remote == remote && this.net == net && calls == 0
    {
      this.remote := remote;
      this.net := net;
      calls := 0;
    }

    /** `getProductById`: one call; the remote product, or the classified error. */
    method GetProductById(id: ProductId) returns (r: Result<Product, string>)
      modifies this`calls
      ensures calls == old(calls) + 1
      ensures r == Fetch(remote.products, net, old(calls), id)
    {
      var call := calls;
      calls := calls + 1;
      if call in net.outage {
        return Err(Classify(TransportError(net.outage[call])));
      }
      var reply := remote.GetProductById(id);
      match reply
      case Ok(p) => r := Ok(p);
      case Err(f) => r := Err(Classify(Response(f.status, StatusText(f.status), f.message)));
    }

    /** The write `axios.put(..., { inventory: v })`: one call; its error is axios's own. */
    method PutInventory(id: ProductId, v: int) returns (r: Option<string>)
      requires remote.Valid()
      modifies this`calls, remote
      ensures remote.Valid()
      ensures calls == old(calls) + 1
      ensures (remote.products, r) == Put(old(remote.products), net, old(calls), id, v)
    {
      var call := calls;
      calls := calls + 1;
      if call in net.outage {
        return Some(AxiosMessage(TransportError(net.outage[call])));
      }
      var reply := remote.UpdateProduct(id, InventoryPatch(v));
      if reply.Ok? || IsSuccess(StatusOf(net, reply.error)) {
        return None;
      }
      var s := StatusOf(net, reply.error);
      r := Some(AxiosMessage(Response(s, StatusText(s), reply.error.message)));
    }

    /** `checkProductsStock(items)`: `None` when every line is in stock, otherwise the
      * error of the first line that is not; the product table is not touched. */
    method CheckProductsStock(items: seq<Line>) returns (r: Option<string>)
      modifies this`calls
      ensures Check(calls, r) == StockCheck(remote.products, net, old(calls), items)
    {
      var i := 0;
      while i < |items|
        invariant 0 <= i <= |items|
        invariant StockCheck(remote.products, net, old(calls), items[..i]) == Check(calls, None)
      {
        PrefixOfPrefix(items, i);
        var fetched := GetProductById(items[i].productId);
        if fetched.Err? {
          StockCheckAbsorbs(remote.products, net, old(calls), items, i + 1);
          return Some(fetched.error);
        }
        if fetched.value.inventory < items[i].quantity {
          StockCheckAbsorbs(remote.products, net, old(calls), items, i + 1);
          return Some(OutOfStock(fetched.value));
        }
        i := i + 1;
      }
      assert items[..i] == items;
      r := None;
    }

    /** `updateProductInventory(items)`: for each line in turn, read the product and
      * write its inventory minus the quantity; the first error ends the loop and is
      * returned, with the earlier writes left in place. */
    method UpdateProductInventory(items: seq<Line>) returns (r: Option<string>)
      requires remote.Valid()
      modifies this`calls, remote
      ensures remote.Valid()
      ensures Run(remote.products, calls, r) == Decrement(old(remote.products), net, old(calls), items)
    {
      ghost var start, first := remote.products, calls;
      var i := 0;
      while i < |items|
        invariant 0 <= i <= |items|
        invariant remote.Valid()
        invariant Decrement(start, net, first, items[..i]) == Run(remote.products, calls, None)
      {
        DecrementStep(start, net, first, items, i);
        var failure := DecrementOne(items[i]);
        if failure.Some? {
          DecrementAbsorbs(start, net, first, items, i + 1);
          return failure;
        }
        i := i + 1;
      }
      assert items[..i] == items;
      r := None;
    }

    /** The loop body of `updateProductInventory`: read the product afresh, then write
      * back its inventory minus the line's quantity. */
    method DecrementOne(line: Line) returns (r: Option<string>)
      requires remote.Valid()
      modifies this`calls, remote
      ensures remote.Valid()
      ensures Run(remote.products, calls, r) == DecrementLine(Run(old(remote.products), old(calls), None), net, line)
    {
      var fetched := GetProductById(line.productId);
      if fetched.Err? {
        return Some(fetched.error);
      }
      r := PutInventory(line.productId, fetched.value.inventory - line.quantity);
    }
  }
}
