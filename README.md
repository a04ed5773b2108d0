# Checkout core of go-ecom-api, modelled in Dafny

This project models the checkout logic of the cart service in
`service/cart/service.go`. The logic runs in four steps:

1. `GetCartItemsIDs` turns a cart into its product IDs. It fails when any
   quantity is not positive.
2. `checkIfItemInStock` checks the cart against a map of product records
   built from a snapshot.
3. `calculateTotalPrice` prices the cart.
4. `(*Handler).CreateOrder` does the work. It builds the product map, runs
   the stock check, computes the total, writes every decremented product back
   through the product store, inserts one order and then one order item per
   cart item.

Modules, one per file:

- `Types` (`types.dfy`): the records of `types/types.go`, the error kinds and
  Go's 64-bit wrap-around.
- `Stores` (`stores.dfy`): the product store and the order store as classes
  holding abstract state. "Any call may fail" is modelled by a nondeterministic
  choice in each store method. Every call is recorded in a log together with its
  outcome (`Attempt(request, ok)`), so a contract can say exactly which calls
  were made and what they left behind.
- `Cart` (`cart.dfy`): the specification functions, plus the methods that
  follow the source's loops and are proved against those functions. The class
  `Handler` holds the two stores.
- `CartProperties` (`cart_properties.dfy`): lemmas about the specification
  functions, and a client method, `CheckoutExamples`. It calls
  `Handler.CreateOrder` on two carts: one product of 5 units at 10.00 with a
  cart of 2 units, and the same product with a cart of 10 units. It shows what a caller can conclude from
  `Handler.CreateOrder`'s contract alone.

Modelling decisions:

- **Prices** are whole cents (`int`), so totals are exact.
- **`productMap[id]`** at a missing key gives Go's zero `Product` (`Lookup`).
- **Store failure.** A failed `UpdateProduct` changes nothing. A successful one
  behaves like `UPDATE ... WHERE id = ?` in `service/product/store.go:66-72`:
  an unknown ID matches no row, and the creation time is never written.
- **Products table.** `ProductStore.Valid()` says every row sits under its own
  ID, as in a table keyed by its `id` column. The constructor demands it of the
  initial table, and `UpdateProduct` and `Handler.CreateOrder` preserve it.
- **Calls are logged.** Each store records every call it receives, with its
  outcome: `UpdateProduct`, the order insert and `CreateOrderItem` alike.
- **Order IDs** come from a counter in the order store.
- **Loops as helpers.** `CreateOrder`'s two store loops (lines 37-42 and
  56-63) and its map-building loop (23-26) are separate methods
  (`Handler.UpdateStock`, `Handler.CreateOrderItems`, `BuildProductMap`).
  `CreateOrder` calls them in the source's order.

Two quirks of the code are kept as they are:

- **Repeated product IDs.** A cart that names a product twice is stock-checked
  one item at a time. Every write-back starts from the snapshot, so only the
  last stored write for a product counts. `RepeatedIdsNotSummed` and
  `RepeatedIdsLastWriteWins` show this on concrete carts.
- **Dropped errors.** Errors from `UpdateProduct` and `CreateOrderItem` are
  ignored.

Three consequences of the code, each proved:

- **Stock decrease.** Each product's stock falls by exactly the requested
  quantity only when the cart names each product once with a positive
  quantity, every write-back is stored, the table agrees with the snapshot and
  the stock is in Go's `int` range (`CheckoutDecrementsStock`).
- **Order total.** The order's total equals the sum of its stored line items
  only when every line-item insert succeeds (`AllLineItemsStored`). It always
  equals the sum over the line items requested (`OrderTotalMatchesLineItems`).
- **Quantity check.** The stock check does not reject non-positive quantities
  (`NonPositiveQuantitiesPass`). Only `GetCartItemsIDs` does.

## Model

| member | source | states |
|---|---|---|
| Types.Wrap64 | service/cart/service.go:39 | Go's `int` subtraction: the result lies in the 64-bit range, equals the exact value when that is in range, and differs from it by a multiple of 2^64 |
| Stores.ProductStore.UpdateProduct | service/product/store.go:66-72 | the table stays keyed by ID; the call is appended to the log with its outcome; on success the row with the product's ID gets the new name, description, image, price and quantity and keeps its creation time, and an unknown ID changes nothing; on failure nothing changes and the error is a store failure |
| Stores.OrderStore.CreateOrder | types/types.go:72 | the call is logged with its outcome; on success the order is stored under the next counter value, which is returned; on failure the ID is 0 and no order is stored; the order items are untouched |
| Stores.OrderStore.CreateOrderItem | types/types.go:73 | the call is logged with its outcome; the item is appended to the stored items exactly when the call succeeds; the orders, their log and the ID counter are untouched |
| Cart.GetCartItemsIds | service/cart/service.go:9-20 | succeeds exactly when every quantity is positive (0 is rejected); on success the list is as long as the cart, with the i-th ID being the i-th item's product ID; on failure the error names the product of the first item with a non-positive quantity |
| Cart.BuildProductMap | service/cart/service.go:23-26 | the loop builds exactly the map `ProductMap` of the products, in order |
| Cart.CheckIfItemInStock | service/cart/service.go:68-85 | returns the stock-check outcome `StockCheck`: the empty cart fails with EmptyCart, and otherwise the items are checked in order until the first that fails |
| Cart.CalculateTotalPrice | service/cart/service.go:87-95 | the loop's sum equals `TotalPrice`: price times quantity summed in item order, with a missing product priced 0 |
| Cart.Handler.CreateOrder | service/cart/service.go:22-66 | a cart failing the stock check returns (0, 0, that error) and leaves both stores unchanged; otherwise one UpdateProduct call per item, in order, each carrying the snapshot record less that item's quantity, and the product table becomes the fold of the successful calls and stays keyed by ID; then exactly one order insert is requested, with that user, the cart's `TotalPrice`, status "pending" and address "123 Main St"; if it fails, the result is (0, 0, store failure), no order or line item is stored and the stock updates stay; otherwise the returned ID is the store's new order ID, the total is `TotalPrice`, the order stored has that user, total, status "pending" and address "123 Main St", and it is followed by exactly one CreateOrderItem call per cart item |
| Cart.Handler.UpdateStock | service/cart/service.go:36-42 | the table stays keyed by ID; the log grows by exactly one call per item, in item order, each carrying that item's write-back; the table is the old table with the successful calls applied |
| Cart.Handler.CreateOrderItems | service/cart/service.go:55-63 | the item log grows by one call per cart item, carrying the order ID, the item's product ID and quantity and the snapshot's price; the stored items grow by the successful calls; the orders and the order log are untouched |
| CartProperties.ProductMapDomain | service/cart/service.go:23-26 | an ID is in the product map exactly when some product in the slice has that ID |
| CartProperties.ProductMapLaterWins | service/cart/service.go:23-26 | when the slice repeats an ID, the entry that no later entry repeats is the one the map holds |
| CartProperties.ProductMapKeyedById | service/cart/service.go:23-26 | every record of the product map is stored under its own ID |
| CartProperties.ProductMapMember | service/cart/service.go:23-26 | every record of the product map is one of the input products |
| CartProperties.FirstShortagePasses | service/cart/service.go:73-84 | the per-item loop passes exactly when every item is in the map with at least its quantity in stock |
| CartProperties.StockCheckPasses | service/cart/service.go:68-85 | the stock check passes exactly when the cart is non-empty and every item's product is in the map with stock at least the item's quantity (equal stock passes) |
| CartProperties.StockCheckFirstFailure | service/cart/service.go:73-84 | a non-empty cart fails with the error of its first failing item: ProductNotFound when the product is missing, OutOfStock when the stock is too low |
| CartProperties.StockCheckErrors | service/cart/service.go:68-85 | the only errors the check reports are EmptyCart for the empty cart and the error of some failing item |
| CartProperties.StockCheckPerItem | service/cart/service.go:73-84 | a cart passes exactly when it is non-empty and each of its items passes on its own; quantities for a repeated ID are not added up |
| CartProperties.RepeatedIdsNotSummed | service/cart/service.go:73-84 | two items of 3 units of one product pass the check against a stock of 5 |
| CartProperties.NonPositiveQuantitiesPass | service/cart/service.go:79-81 | the stock check lets items with quantity 0 or -2 through |
| CartProperties.TotalPriceAppend | service/cart/service.go:87-95 | the total of a concatenated cart is the sum of the totals of its parts |
| CartProperties.TotalPriceCons | service/cart/service.go:87-95 | the total of a cart is its first item's snapshot price times its quantity plus the total of the rest |
| CartProperties.OrderTotalMatchesLineItems | service/cart/service.go:44-63 | the order's total equals the sum of price times quantity over the line items requested for the cart |
| CartProperties.AllLineItemsStored | service/cart/service.go:55-63 | when every line-item call succeeds, the stored items are exactly one per cart item, in cart order, with the order ID, product ID, quantity and snapshot price, and they sum to the order's total |
| CartProperties.StoredAtMost | service/cart/service.go:56-63 | whatever fails, the stored items are among the requests and are never more numerous |
| CartProperties.ApplyUpdatesKeys | service/product/store.go:66-72 | updates never add or remove products and never change a row's ID or creation time |
| CartProperties.ApplyUpdatesUntouched | service/cart/service.go:37-42 | a product that no successful call names keeps its row |
| CartProperties.ApplyUpdatesLastWins | service/cart/service.go:37-42 | the last successful call for a product decides its row, and earlier calls for it leave no trace |
| CartProperties.StockAfterWriteBack | service/cart/service.go:37-42 | after the write-backs, a product whose last write-back was stored holds the snapshot's fields with the snapshot quantity less that last item's quantity, so for repeated IDs only the last item's quantity is taken off |
| CartProperties.CheckoutDecrementsStock | service/cart/service.go:37-42 | when every write-back is stored, the cart names each product once with a positive quantity, the table agrees with the snapshot, and the snapshot's stock is in Go's `int` range, each product's stock falls by exactly the quantity asked for and stays non-negative |
| CartProperties.RepeatedIdsLastWriteWins | service/cart/service.go:37-42 | items of 2 and 3 units of one product against a stock of 5 leave 2 units, not 0 |
| CartProperties.ValidatedWriteBackExact | service/cart/service.go:38-39 | for an item with positive quantity and enough in-range stock, the written quantity is the stock less the item's quantity, with no wrap-around, and lies in [0, stock) |

## Left out

- Floating-point prices: `float64` prices and totals are whole cents, and IEEE rounding of the sum is not modelled.
- Integer width: only the stock subtraction wraps at 64 bits. Totals are floating point in the source, and IDs come from the database, so neither is given a width.
- The HTTP handler that calls `GetCartItemsIDs`, then `GetProductsByIds`, then `CreateOrder`: it is not part of this model, and neither is the `Handler` struct's declaration. The model covers the three checkout steps and gives `Handler` only the two stores.
- The order store's implementation is not part of this model. It is modelled from its interface (`types/types.go:71-74`) only.
- Order store on failure: returning ID 0 from a failed order insert and storing nothing is an assumption of the model, because the interface does not say.
- Order-item rows: they get no row ID, because the core never reads one.
- Timestamps: the stores do not fill in `CreatedAt`, because the clock is the database's.
- `GetProducts` and `GetProductsByIds` of the product store: the checkout core does not call them, because the snapshot is an input.
- Error messages: `fmt.Errorf` strings are modelled as `CartError` constructors that carry the product ID the message names.
- Concurrency: lost updates between concurrent checkouts happen at the database level, and this sequential code does not coordinate them.
- Authentication, JWT handling, configuration loading, routing and JSON encoding: these are I/O and foreign libraries.
