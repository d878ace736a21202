# Orders, products and customers: a Dafny model

This project models three small services of an e-commerce back end. Each stores Mongoose documents and answers HTTP requests with express handlers.

- **Product service.** Products are kept in a collection.
  - The schema has required fields, a `trim` setter on the name, `min: 0` on price and inventory, and defaults.
  - There are handlers to create, read, update and delete products.
- **Order service.**
  - Orders are placed through a saga:
    1. check the request's fields;
    2. check stock line by line against the product service;
    3. read every product again to copy its name and price, summing the total;
    4. run `Order.create`;
    5. read and write each line's inventory again.
  - A step that fails is answered 400 and nothing earlier is undone.
  - Status, payment-status and cancellation rules apply to stored orders.
  - The product service is reached through an HTTP client. The client has its own error classification.
- **Customer service.** Customers are kept with email uniqueness and email normalisation (trimmed and lower-cased). Each customer has a list of addresses. The address handlers keep at most one default address, and address subdocuments are stored without ids.

## How the model is laid out

- Each handler that changes a collection is a method of a class holding that collection (`ProductStore.Store`, `OrderController.Orders`, `CustomerController.Customers`, and the order service's `ProductClient.Client`).
  - Most methods are proved equal to a pure function of the old state. These are `UpdateProduct` (`Update`), `CreateOrder` (`Place`), `UpdateCustomer` (`Updated`), `AddAddress` (`AddressAdded`), `UpdateAddress` (`AddressEdited`), `DeleteAddress` (`AddressRemoved`), and the client's `CheckProductsStock`, `UpdateProductInventory`, `GetProductById` and `PutInventory` (`StockCheck`, `Decrement`, `Fetch`, `Put`).
  - `CreateProduct`, `DeleteProduct`, `CreateCustomer` and `DeleteCustomer` state their replies and new collections in their own `ensures`, each error case and the success case. `UpdateOrderStatus`, `UpdatePaymentStatus` and `CancelOrder` do the same, in terms of the order rules `SetStatus`, `SetPaymentStatus` and `Cancel`.
  - The properties are proved as lemmas about those functions.
- The loops of the source are loops in the model, each proved equal to a function:
  - `CheckProductsStock`, `UpdateProductInventory` and the pricing loop `PriceItems` are `while` loops, proved against the last-element recursive functions `StockCheck`, `Decrement` and `Price`;
  - the `forEach` that clears default flags is the `for` loop `ClearDefaults`, proved against the sequence comprehension `Cleared`;
  - `findIndex` is the `while` loop `FindAddressIndex`, proved against `LocateFrom`, which recurses forward from an index.
- The product service behind the client is the same `Store` object. What the network does is a parameter (`Network`):
  - the calls that fail in transport, numbered in the order the client makes them;
  - the status that the product service's error middleware gives an error thrown without a status.

  The middleware is not part of this model.
- Prices and totals are integer cents. Ids are natural numbers handed out by a counter.
- A missing request string is `""`. A missing optional field is `None`.

## Model

| member | source | states |
|---|---|---|
| ProductModel.FirstViolation | product-service/models/Product.js:5-28 | the schema's validators in field order; none fails exactly when name, description and category are non-empty and price and inventory are at least 0 |
| ProductModel.Create | product-service/models/Product.js:5-36 | `Product.create` succeeds exactly when the trimmed name, description and category are non-empty, a price is given and is at least 0, and the inventory (default 0) is at least 0; the product has the trimmed name, inventory default 0, imageUrl default '' and isActive default true, and satisfies the schema invariant; every refusal is a validation error |
| ProductModel.Merge | product-service/models/Product.js:14-24 | an update gives the merged product or a validation error; a negative inventory or price in the update is always refused |
| ProductModel.MergeValid | product-service/controllers/productController.js:60-64 | with `runValidators`, only the written paths are checked; on a valid product this accepts exactly the updates whose merged product is valid |
| ProductModel.InventoryPatchEffect | product-service/models/Product.js:19-24 | the write `{ inventory: v }` on a valid product changes only the inventory when v >= 0, and is refused with "Inventory cannot be negative" when v < 0 |
| ProductStore.Find | product-service/controllers/productController.js:15-24 | 404 "Product not found" exactly for an unknown id, otherwise the stored product |
| ProductStore.Update | product-service/controllers/productController.js:52-67 | an unknown id gives 404 and no change; an accepted update stores the merged product under that id; a refused update leaves the collection unchanged |
| ProductStore.UpdateFrame | product-service/controllers/productController.js:52-67 | an update keeps the set of ids and touches no other product |
| ProductStore.UpdateKeepsValid | product-service/controllers/productController.js:60-64 | an update keeps every stored product valid, and is refused exactly when the merged product would break the schema |
| ProductStore.Store.GetProducts | product-service/controllers/productController.js:7-10 | returns every stored product, unchanged |
| ProductStore.Store.GetProductById | product-service/controllers/productController.js:15-24 | returns `Find` on the collection and changes nothing |
| ProductStore.Store.CreateProduct | product-service/controllers/productController.js:29-47 | 400 "Please provide all required fields" when the guard fails; otherwise `Product.create`'s refusal, or a new product under a fresh id with imageUrl as given or ''; it succeeds exactly when the guard passes and `Product.create` accepts; nothing else changes; the collection stays valid |
| ProductStore.Store.UpdateProduct | product-service/controllers/productController.js:52-67 | the new collection and the reply are those of `Update`; the collection stays valid |
| ProductStore.Store.DeleteProduct | product-service/controllers/productController.js:72-83 | 404 for an unknown id; otherwise exactly that product is removed and its id returned |
| ProductStore.ZeroPriceRefusedZeroInventoryAccepted | product-service/controllers/productController.js:32-35 | the guard refuses price 0 (falsy) and an undefined inventory, but accepts inventory 0 |
| ProductClient.ClassifyKeepsKind | order-service/services/productService.js:15-25 | the three error messages of `getProductById` (non-2xx response, no response, set-up error) never collide: the class can be read back from the message |
| ProductClient.Fetch | order-service/services/productService.js:10-27 | a read succeeds exactly when its call gets through and the product exists, and then returns the stored product |
| ProductClient.PutFrame | order-service/services/productService.js:62-64 | a write touches only the product it names, keeps the set of products and keeps the schema invariant |
| ProductClient.CheckLinePasses | order-service/services/productService.js:38-42 | checking one line makes one call and passes exactly when the read succeeds and inventory >= quantity |
| ProductClient.StockCheckPassesIff | order-service/services/productService.js:34-49 | the check passes exactly when every line, on its own, is in stock at its own call (duplicate quantities are not summed), and then it has made one call per line |
| ProductClient.StockCheckStopsAtFirstShortage | order-service/services/productService.js:37-43 | a failed check stopped at the first line in input order that failed; every earlier line was in stock; the error is that line's (the out-of-stock message with the available count, or the fetch error); later lines were not fetched |
| ProductClient.StockCheckAbsorbs | order-service/services/productService.js:37-43 | once a prefix of the lines has failed, the rest change nothing |
| ProductClient.DecrementFrame | order-service/services/productService.js:56-69 | whatever happens, the inventory update keeps the set of products and the schema invariant, and touches no product that no line names |
| ProductClient.DecrementLineFrame | order-service/services/productService.js:59-64 | one line of the update touches only the product it names |
| ProductClient.DecrementLineSuccess | order-service/services/productService.js:59-64 | a line that went through lowers its product's inventory by the quantity, from the value just read |
| ProductClient.DecrementLineFailure | order-service/services/productService.js:58-67 | a failed line changes no product |
| ProductClient.DecrementAbsorbs | order-service/services/productService.js:58-67 | the first error ends the loop: the later lines change nothing |
| ProductClient.DecrementSuccess | order-service/services/productService.js:56-69 | a successful update leaves each product at its old inventory minus the sum of the quantities of the lines naming it, with every other field unchanged, after two calls per line; since each write reads afresh, repeated lines accumulate |
| ProductClient.DecrementFailureApplied | order-service/services/productService.js:58-67 | a failed update applied exactly the lines before the failing one; the failing line wrote nothing and later lines were not attempted |
| ProductClient.Client.GetProductById | order-service/services/productService.js:10-27 | one call; returns `Fetch` |
| ProductClient.Client.PutInventory | order-service/services/productService.js:62-64 | one call; the store and the raw axios error are those of `Put`; the store stays valid |
| ProductClient.Client.CheckProductsStock | order-service/services/productService.js:34-49 | the loop's result and call count are those of `StockCheck`; the product table is not touched |
| ProductClient.Client.UpdateProductInventory | order-service/services/productService.js:56-69 | the loop's table, call count and error are those of `Decrement`; the store stays valid |
| ProductClient.Client.DecrementOne | order-service/services/productService.js:59-64 | one loop body: a fresh read, then a write of inventory minus quantity |
| OrderModel.ParseStatus | order-service/models/Order.js:46-51 | the status enum accepts exactly the five spellings, each for its own status |
| OrderModel.ParseStatusName | order-service/models/Order.js:46-51 | every status is accepted under its own spelling |
| OrderModel.ParsePaymentMethod | order-service/models/Order.js:52-56 | the payment method enum accepts exactly the four spellings |
| OrderModel.ParsePaymentMethodName | order-service/models/Order.js:52-56 | every payment method is accepted under its own spelling |
| OrderModel.ParsePaymentStatus | order-service/models/Order.js:57-62 | the payment status enum accepts exactly the four spellings |
| OrderModel.ParsePaymentStatusName | order-service/models/Order.js:57-62 | every payment status is accepted under its own spelling |
| OrderModel.FirstInvalidItem | order-service/models/Order.js:3-26 | finds the first item without a name or with quantity < 1, or reports that there is none |
| OrderModel.NewOrder | order-service/models/Order.js:28-70 | `Order.create` succeeds exactly when customerId is non-empty, every item has a name and quantity >= 1, all five address fields are non-empty and the payment method is in its enum; the order keeps the given fields and starts with status and payment status `pending` |
| OrderModel.TotalAppend | order-service/controllers/orderController.js:65 | adding a line adds price times quantity to the total |
| OrderLifecycle.SetStatus | order-service/controllers/orderController.js:106-116 | setting a status succeeds exactly when the target is a valid status and is not `cancelled` for a shipped or delivered order; only the status changes; the refusal is 400 "Cannot cancel an order that is already …"; an unknown spelling is refused by the enum |
| OrderLifecycle.SetPaymentStatus | order-service/controllers/orderController.js:137-141 | succeeds exactly for a valid payment status, whatever the order's status, and changes only the payment status |
| OrderLifecycle.Cancel | order-service/controllers/orderController.js:155-163 | succeeds exactly when the order is not shipped or delivered, and sets the status to `cancelled` |
| OrderLifecycle.CancelIsSetStatusCancelled | order-service/controllers/orderController.js:106-110 | cancelling behaves exactly like setting the status to `cancelled` |
| OrderLifecycle.CancelIdempotent | order-service/controllers/orderController.js:155-161 | cancelling a cancelled order succeeds again and changes nothing |
| OrderLifecycle.StatusUnordered | order-service/controllers/orderController.js:106-112 | any status other than `cancelled` can be set from any status, including back out of `delivered` or `cancelled` |
| OrderLifecycle.PaymentIndependentOfStatus | order-service/controllers/orderController.js:112-139 | status and payment status updates commute |
| OrderLifecycle.TransitionsKeepValid | order-service/controllers/orderController.js:112-163 | the three rules keep a valid order valid |
| OrderController.PriceSucceedsIff | order-service/controllers/orderController.js:55-66 | the pricing loop succeeds exactly when every product read goes through, with one call per line |
| OrderController.PriceLines | order-service/controllers/orderController.js:52-66 | a successful pricing loop has one order line per request line, in order, with the request's product id and quantity and the product's name and price; its total is the sum of price times quantity |
| OrderController.PriceAbsorbs | order-service/controllers/orderController.js:55-66 | a failed read ends the pricing loop |
| OrderController.Place | order-service/controllers/orderController.js:32-86 | a request without customerId, items, shipping address or payment method gets 400 "Please provide all required fields" with no call and no change; every failure is 400; a 201 goes with a stored order; nothing changes in the product table unless an order was stored; no product appears or disappears; a stored order is valid |
| OrderController.Priced | order-service/controllers/orderController.js:52-85 | the pricing stage and the later stages keep the same outcome invariant |
| OrderController.Assemble | order-service/controllers/orderController.js:69-85 | `Order.create`, then the inventory update; the same invariant |
| OrderController.Settle | order-service/controllers/orderController.js:78-85 | once the order is stored, it stays stored whatever the inventory update does; the same invariant |
| OrderController.Orders.GetOrders | order-service/controllers/orderController.js:8-13 | returns every stored order |
| OrderController.Orders.GetOrderById | order-service/controllers/orderController.js:18-27 | 404 "Order not found" exactly for an unknown id, otherwise the stored order |
| OrderController.Orders.CreateOrder | order-service/controllers/orderController.js:32-86 | the product table, call count and reply are those of `Place`; the order collection gains exactly the order `Place` stored, under a fresh id |
| OrderController.Orders.PriceItems | order-service/controllers/orderController.js:52-66 | the loop's lines, total and error are those of `Price`; it does not change the product table |
| OrderController.Orders.UpdateOrderStatus | order-service/controllers/orderController.js:91-117 | 400 without a status, 404 for an unknown id, otherwise `SetStatus`; the collection changes only for an accepted change |
| OrderController.Orders.UpdatePaymentStatus | order-service/controllers/orderController.js:122-142 | 400 without a payment status, 404 for an unknown id, otherwise `SetPaymentStatus` |
| OrderController.Orders.CancelOrder | order-service/controllers/orderController.js:147-166 | 404 for an unknown id, 400 for shipped or delivered, otherwise the status becomes `cancelled` and the reply is `{ id, status: 'cancelled' }` |
| OrderPlacement.PlaceCreated | order-service/controllers/orderController.js:42-49 | a placement that stored an order passed the guard and the stock check, and the check made one call per line |
| OrderPlacement.PricedCreated | order-service/controllers/orderController.js:55-69 | a pricing stage that stored an order read every product, one call per line |
| OrderPlacement.AssembleCreated | order-service/controllers/orderController.js:69-79 | a stored order is what `Order.create` made of the priced lines and total |
| OrderPlacement.PlaceSettles | order-service/controllers/orderController.js:49-79 | every line's product is read twice before `Order.create`, and the inventory update starts after those calls |
| OrderPlacement.PricedItemsValid | order-service/controllers/orderController.js:58-63 | the priced lines pass the item validators exactly when every requested product exists with a non-empty name and every quantity is >= 1 |
| OrderPlacement.PricedCreatesIff | order-service/controllers/orderController.js:52-76 | from pricing on, an order is stored exactly when every read goes through, every line is orderable and the rest of the document passes the schema |
| OrderPlacement.PlaceChecked | order-service/controllers/orderController.js:47-49 | past the guard, a stock check that passes hands over to pricing after one call per line; any other check stores nothing |
| OrderPlacement.PlaceCreatesIff | order-service/controllers/orderController.js:32-86 | an order is stored exactly when the guard passes, every line is in stock at the check, every product can be read for pricing, and the assembled order passes the schema |
| OrderPlacement.PlacedOrderContents | order-service/controllers/orderController.js:52-76 | a stored order has one line per request line, in order, with the request's product id and quantity (>= 1) and the product's name and price; its total is the sum of price times quantity over its lines; customer, address, payment method and notes ('' by default) come from the request; status and payment status are `pending` |
| OrderPlacement.SettledInventory | order-service/controllers/orderController.js:78-81 | when the last stage succeeds, every product lost the quantities of all lines naming it |
| OrderPlacement.PlacedOrderInventory | order-service/controllers/orderController.js:32-86 | a 201 took from each product the quantities of all lines naming it, changed nothing else, and made four calls per line |
| OrderPlacement.SettledPartially | order-service/controllers/orderController.js:78-85 | a failed inventory update applied exactly the lines before the failing one |
| OrderPlacement.NoRollback | order-service/controllers/orderController.js:69-85 | when the inventory update fails, the order stays stored, the reply is 400, and the earlier lines' decrements stay applied |
| OrderPlacement.SixWidgets | order-service/services/productService.js:40-41 | six of a product with five in stock: 400 "Product Widget is out of stock. Available: 5", one call, nothing stored or changed |
| OrderPlacement.TwoThreesChecked | order-service/services/productService.js:37-43 | two lines of 3 against 5 in stock both pass the check |
| OrderPlacement.TwoThreesPriced | order-service/controllers/orderController.js:55-66 | those two lines price to 2 × 3 × 999 cents |
| OrderPlacement.TwoThreesDecremented | order-service/services/productService.js:58-64 | the first write leaves 2; the second asks for -1, which the schema refuses |
| OrderPlacement.RepeatedLinesOversell | order-service/controllers/orderController.js:69-85 | the two-line order is stored with total 5994, the reply is 400 with axios's message, and 2 are left |
| OrderPlacement.OneThreeStages | order-service/controllers/orderController.js:49-79 | the stages of one line of 3 against 5 in stock |
| OrderPlacement.OneThreePlaced | order-service/controllers/orderController.js:32-86 | one line of 3 against 5: stored, 201, 2 left, four calls |
| OrderPlacement.BackToBack | order-service/services/productService.js:40-41 | a second identical order after the first is refused at the stock check with "Available: 2" and changes nothing |
| Text.TrimSpec | product-service/models/Product.js:5-9 | the `trim` setter returns the slice of the input that starts after its leading white space and leaves only white space after it, with no white space at either end of the result |
| Text.TrimUnique | product-service/models/Product.js:5-9 | conversely, any slice with only white space around it and none at its own ends is what `trim` returns, so the description above determines the result |
| Text.TrimIdempotent | customer-service/models/Customer.js:42-46 | trimming twice is trimming once |
| Text.ToLower | customer-service/models/Customer.js:52-57 | the `lowercase` setter gives a string without capitals, of the same length |
| Text.TrimLowerCommute | customer-service/models/Customer.js:56-57 | trimming and lower-casing commute |
| CustomerModel.ValidEmailShape | customer-service/models/Customer.js:58-61 | an email the pattern accepts is non-empty, contains '@' and has no white space at its ends |
| CustomerModel.ScanReachesDomain | customer-service/models/Customer.js:59 | the scanner of the pattern reaches the domain part only past an '@' |
| CustomerModel.FourLetterLabelRefused | customer-service/models/Customer.js:59 | "ann@shop.info" is refused: the last label must be 2 or 3 characters |
| CustomerModel.JoinedNameAccepted | customer-service/models/Customer.js:59 | "jo.li@my-co.com" is accepted: single '.' or '-' inside the parts |
| CustomerModel.NormalizeEmail | customer-service/models/Customer.js:52-57 | a normalised email is trimmed and has no capitals |
| CustomerModel.NormalizeEmailIdempotent | customer-service/models/Customer.js:52-57 | normalising twice is normalising once |
| CustomerModel.NormalizeEmailIgnoresCase | customer-service/models/Customer.js:57 | lower-casing an email before it is normalised does not change the result, so emails differing only in case match in a lookup |
| CustomerModel.CastAddresses | customer-service/models/Customer.js:3-38 | every given address is trimmed field by field, without an id, with isDefault false unless given |
| CustomerModel.AddressViolation | customer-service/models/Customer.js:3-29 | no message exactly when all five address fields are non-empty |
| CustomerModel.AddressesViolation | customer-service/models/Customer.js:68 | no message exactly when every address is valid |
| CustomerModel.FirstViolation | customer-service/models/Customer.js:40-79 | no message exactly when names, email, phone and every address pass their validators |
| CustomerModel.NewCustomer | customer-service/models/Customer.js:40-79 | `Customer.create` succeeds exactly when the cast customer is valid; the customer is stored with trimmed fields, a normalised email and isActive true; a refusal is a validation error |
| CustomerModel.NewCustomerAccepts | customer-service/models/Customer.js:42-67 | `Customer.create` succeeds exactly when the trimmed names and phone are non-empty, the normalised email matches the pattern, and every trimmed address field is non-empty |
| CustomerModel.PatchValid | customer-service/controllers/customerController.js:89-93 | with `runValidators`, only the written paths are checked; on a stored customer this accepts exactly the updates whose merged customer is valid, and the result is stored (valid, with a normalised email) |
| AddressList.LocateFrom | customer-service/controllers/customerController.js:177-179 | a found index lies in the list, from the starting position on |
| AddressList.LocateSpec | customer-service/controllers/customerController.js:177-184 | the lookup finds the first address with the key, all earlier addresses having ids; it answers 404 exactly when every address has an id other than the key; every other outcome is the `toString` crash on a missing id |
| AddressList.LocateWithoutIds | customer-service/models/Customer.js:35-37 | on an id-less list, the lookup gives 404 for an empty list and the crash otherwise, never an address |
| AddressList.ClearedSpec | customer-service/controllers/customerController.js:193-197 | clearing keeps the length and every field but the flag, leaves no default except the kept address, and leaves that address untouched |
| AddressList.AppendedSpec | customer-service/controllers/customerController.js:153-160 | appending adds exactly the new address at the end; a new default becomes the only default; otherwise the existing flags are untouched |
| AddressList.AppendedKeepsOneDefault | customer-service/controllers/customerController.js:153-160 | appending keeps at most one default |
| AddressList.EditedSpec | customer-service/controllers/customerController.js:186-198 | editing keeps the length; only the matched address takes the body's keys (trimmed); if the body sets isDefault it becomes the only default, otherwise the other addresses are untouched |
| AddressList.EditedKeepsOneDefault | customer-service/controllers/customerController.js:186-198 | editing keeps at most one default |
| AddressList.RemovedSpec | customer-service/controllers/customerController.js:225-226 | removing takes out exactly the matched address and keeps the order of the rest (and at most one default) |
| CustomerController.Find | customer-service/controllers/customerController.js:15-24 | 404 "Customer not found" exactly for an unknown id, otherwise the stored customer |
| CustomerController.Updated | customer-service/controllers/customerController.js:71-96 | 404 for an unknown id; an accepted update stores the merged customer under its id; every refusal leaves the collection unchanged |
| CustomerController.SameEmailKeepsValid | customer-service/models/Customer.js:55 | replacing a customer by a stored one with the same email keeps emails unique |
| CustomerController.UpdatedKeepsValid | customer-service/controllers/customerController.js:79-93 | an update keeps every customer stored and no two customers with the same email |
| CustomerController.RecasedOwnEmailRefused | customer-service/controllers/customerController.js:80-86 | writing one's own email in another case or with extra spaces is refused 400 "Email already in use": the comparison is on the raw text, the lookup on the normalised one |
| CustomerController.TakenEmailRefused | customer-service/controllers/customerController.js:80-86 | an email another customer holds, in any case, is refused 400 "Email already in use" |
| CustomerController.Save | customer-service/controllers/customerController.js:161 | `customer.save()` succeeds exactly when the changed customer passes the schema; then only that customer is replaced and returned, and a refusal is a schema error that changes nothing |
| CustomerController.AddressAdded | customer-service/controllers/customerController.js:121-164 | `addAddress`: a refusal changes nothing, and a success replaces only that customer, by the customer it returns |
| CustomerController.AddressEdited | customer-service/controllers/customerController.js:169-203 | `updateAddress`: a refusal changes nothing, and a success replaces only that customer, by the customer it returns |
| CustomerController.AddressRemoved | customer-service/controllers/customerController.js:208-230 | `deleteAddress`: a refusal changes nothing, and a success replaces only that customer, by the customer it returns |
| CustomerController.SavedAddressesKeepValid | customer-service/controllers/customerController.js:161 | saving a changed address list keeps the collection valid |
| CustomerController.AddressAddedSpec | customer-service/controllers/customerController.js:121-164 | past the guard, a new address is refused by the schema exactly when a trimmed field is empty; accepted, it is appended without an id, and a default one becomes the only default |
| CustomerController.AddressAddedKeepsOneDefault | customer-service/controllers/customerController.js:153-161 | `addAddress` keeps at most one default |
| CustomerController.AddressEditedKeepsOneDefault | customer-service/controllers/customerController.js:186-200 | `updateAddress` keeps at most one default |
| CustomerController.AddressRemovedKeepsOneDefault | customer-service/controllers/customerController.js:225-227 | `deleteAddress` keeps at most one default |
| CustomerController.CreateKeepsSeveralDefaults | customer-service/controllers/customerController.js:55-63 | `createCustomer` does not enforce a single default: two default addresses in the body are stored as two |
| CustomerController.AddressEditsFailWithoutIds | customer-service/controllers/customerController.js:177-184 | on a customer whose addresses have no ids, `updateAddress` and `deleteAddress` answer 404 for no addresses and crash otherwise, changing nothing |
| CustomerController.StoreWithoutIds | customer-service/models/Customer.js:35-37 | storing a customer whose addresses have no ids keeps the collection id-less |
| CustomerController.CreatedWithoutIds | customer-service/controllers/customerController.js:55-63 | `createCustomer` stores no address id |
| CustomerController.UpdatedWithoutIds | customer-service/controllers/customerController.js:89-93 | `updateCustomer` stores no address id |
| CustomerController.AddedWithoutIds | customer-service/controllers/customerController.js:144-161 | `addAddress` stores no address id |
| CustomerController.ClearDefaults | customer-service/controllers/customerController.js:193-197 | the `forEach` loop computes `Cleared` |
| CustomerController.FindAddressIndex | customer-service/controllers/customerController.js:177-179 | the `findIndex` loop computes `Locate` |
| CustomerController.Customers.GetCustomers | customer-service/controllers/customerController.js:7-10 | returns every stored customer |
| CustomerController.Customers.GetCustomerById | customer-service/controllers/customerController.js:15-24 | returns `Find` on the collection |
| CustomerController.Customers.CreateCustomer | customer-service/controllers/customerController.js:29-66 | an email held by a customer (after normalisation) gives 400 "Customer with this email already exists", checked first; then a missing field gives 400 "Please provide all required fields"; then `Customer.create`'s refusal; otherwise the new customer under a fresh id, so it succeeds exactly when the email is free, the fields are present and `Customer.create` accepts; the collection stays valid, so emails stay unique |
| CustomerController.Customers.UpdateCustomer | customer-service/controllers/customerController.js:71-96 | the collection and the reply are those of `Updated`; the collection stays valid |
| CustomerController.Customers.DeleteCustomer | customer-service/controllers/customerController.js:101-116 | 404 for an unknown id; otherwise exactly that customer is removed and its id returned |
| CustomerController.Customers.SaveAddresses | customer-service/controllers/customerController.js:198-200 | `customer.save()` after an address edit: the collection and the reply are those of `Save` of the customer with the new list; the collection stays valid |
| CustomerController.Customers.AddAddress | customer-service/controllers/customerController.js:121-164 | the collection and the reply are those of `AddressAdded`; the collection stays valid |
| CustomerController.Customers.UpdateAddress | customer-service/controllers/customerController.js:169-203 | the collection and the reply are those of `AddressEdited`; the collection stays valid |
| CustomerController.Customers.DeleteAddress | customer-service/controllers/customerController.js:208-230 | the collection and the reply are those of `AddressRemoved`; the collection stays valid |

## Left out

- HTTP and routing. The HTTP transport, axios and express routing are not modelled. A remote call is a read or write of the product store, shaped by the `Network` parameter. Whole-request timeouts, process bootstrap, CORS and the route tables are left out.
- The React frontend is not part of this model.
- Concurrency. Requests run one after another, so the race between the stock check and the writes is not modelled. Two orders are modelled as back-to-back calls (`BackToBack`).
- Prices and totals are integer cents. JavaScript's floating-point `price * quantity` is not modelled.
- Quantities are integers. A non-numeric quantity in a request is not modelled.
- Mongo ids, `createdAt`/`updatedAt` timestamps and the CastError of a malformed id are not modelled. Ids are natural numbers, and an unknown id is the only failure of a lookup.
- Error middleware. The product service's error middleware is not part of this model. The status it answers for an error thrown without a status is the parameter `Network.errorStatus`.
  - The lemmas about the inventory update assume that status is not 2xx. With a 2xx status, a refused write would look like success to axios.
- Validation messages. Mongoose joins the messages of every failing path into one, and the model keeps only one of them. It leaves out the "… validation failed:" prefix for products and customers.
  - A customer keeps the message of the first failing path in schema order.
  - A product keeps the message of the first missing required field (name, description, price, category), and otherwise the first failing validator in schema order. So a draft with a blank name and no description gets the description's message. `createProduct`'s guard lets no such draft through.
- The inventory field's `required` message. A missing inventory takes the default 0, and an explicit `null` is not modelled, so that message never appears.
- A response lost after a write was applied is not modelled. A transport failure always means the call did not reach the store.
- Unicode. `trim` removes exactly space, tab, line feed, carriage return, vertical tab, form feed, U+00A0 and U+FEFF (`Text.IsSpace`). JavaScript's `trim` also removes U+1680, U+2000–U+200A, U+2028, U+2029, U+202F, U+205F and U+3000; the model keeps those characters. `lowercase` lowers ASCII capitals only, so Unicode case mapping is not modelled.
- The email pattern is modelled by a deterministic scanner. It accepts `\w+([.-]?\w+)*@\w+([.-]?\w+)*(\.\w{2,3})+` over the characters it reads, with `\w` as ASCII letters, digits and `_`. The scanner is not proved equivalent to the regular expression; the two worked examples and `ValidEmailShape` check it.
- A missing `email` in `createCustomer` reads as "", so the duplicate lookup finds nothing and the required-field message follows. The model does not capture whether the query layer drops the undefined key, which would make `findOne({})` match any customer.
- `dateOfBirth: null` in an update is not modelled. An update either sets a date or leaves it alone.
- Body keys outside the schema are ignored in updates, as strict mode does.
- The lookups `findOne({ email })` are modelled with the schema's setters applied to the filter. The stored email is compared after normalisation.
- `getOrders`, `getProducts` and `getCustomers` are plain reads (`GetOrders`, `GetProducts`, `GetCustomers`). Their contracts say only that they return the stored collection.
