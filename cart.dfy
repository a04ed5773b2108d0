/** The checkout logic of the cart service (service/cart/service.go): validate a
    cart against a snapshot of the products, price it, write the decremented stock
    back, and record the order with one line item per cart item. Each method is
    proved against the specification functions defined first; what those
    functions promise is proved in module CartProperties. */
module Cart {
  import opened Types
  import opened Stores

  // ---------------------------------------------------------------------------
  // Specification functions
  // ---------------------------------------------------------------------------

  /** `k` is the first cart position whose quantity is not positive. */
  predicate FirstInvalid(items: seq<CartItem>, k: int) {
    && 0 <= k < |items|
    && items[k].quantity <= 0
    && forall j :: 0 <= j < k ==> items[j].quantity > 0
  }

  /** The map built from a slice of products in order: a later entry with the
      same ID replaces an earlier one. */
  function ProductMap(products: seq<Product>): map<int, Product>
    decreases |products|
  {
    if products == [] then map[]
    else
      var last := products[|products| - 1];
      ProductMap(products[..|products| - 1])[last.id := last]
  }

  /** Go's `productMap[id]`: the zero Product when the key is missing. */
  function Lookup(productMap: map<int, Product>, id: int): Product {
    if id in productMap then productMap[id] else ZeroProduct
  }

  predicate ItemInStock(item: CartItem, productMap: map<int, Product>) {
    item.productId in productMap && productMap[item.productId].quantity >= item.quantity
  }

  /** Why a single item fails the stock check. */
  function ItemError(item: CartItem, productMap: map<int, Product>): CartError {
    if item.productId !in productMap then ProductNotFound(item.productId)
    else OutOfStock(item.productId)
  }

  /** The outcome of checking the items one at a time, stopping at the first that fails. */
  function FirstShortage(items: seq<CartItem>, productMap: map<int, Product>): Outcome
    decreases |items|
  {
    if items == [] then Pass
    else if !ItemInStock(items[0], productMap) then Fail(ItemError(items[0], productMap))
    else FirstShortage(items[1..], productMap)
  }

  /** The outcome of `checkIfItemInStock`. */
  function StockCheck(items: seq<CartItem>, productMap: map<int, Product>): Outcome {
    if items == [] then Fail(EmptyCart) else FirstShortage(items, productMap)
  }

  /** Price times quantity summed over the items, in item order; a missing product costs 0. */
  function TotalPrice(items: seq<CartItem>, productMap: map<int, Product>): int
    decreases |items|
  {
    if items == [] then 0
    else
      var last := items[|items| - 1];
      TotalPrice(items[..|items| - 1], productMap) + Lookup(productMap, last.productId).price * last.quantity
  }

  /** The record written back for one item: the snapshot's product with the
      item's quantity taken off, in Go's 64-bit arithmetic. */
  function WriteBack(item: CartItem, productMap: map<int, Product>): Product {
    var product := Lookup(productMap, item.productId);
    product.(quantity := Wrap64(product.quantity - item.quantity))
  }

  /** The `UpdateProduct` calls in `log` are, one for one, the write-backs of `items`. */
  predicate WroteBack(log: seq<Attempt<Product>>, items: seq<CartItem>, productMap: map<int, Product>) {
    |log| == |items| && forall k :: 0 <= k < |items| ==> log[k].request == WriteBack(items[k], productMap)
  }

  const PendingStatus: string := "pending"
  const PlaceholderAddress: string := "123 Main St"

  /** The order submitted to the store; ID and creation time are Go's zero values. */
  function NewOrder(userId: int, total: int): Order {
    Order(0, userId, total, PendingStatus, PlaceholderAddress, "")
  }

  /** The line item submitted for one cart item, at the snapshot's price. */
  function LineItem(item: CartItem, productMap: map<int, Product>, orderId: int): OrderItem {
    OrderItem(0, orderId, item.productId, item.quantity, Lookup(productMap, item.productId).price, "")
  }

  /** The `CreateOrderItem` calls in `log` are, one for one, the line items of `items`. */
  predicate InsertedLineItems(log: seq<Attempt<OrderItem>>, items: seq<CartItem>,
                              productMap: map<int, Product>, orderId: int) {
    |log| == |items| && forall k :: 0 <= k < |items| ==> log[k].request == LineItem(items[k], productMap, orderId)
  }

  // ---------------------------------------------------------------------------
  // The checkout code
  // ---------------------------------------------------------------------------

  /** The product IDs of the cart, position by position; fails at the first
      item whose quantity is not positive. */
  method GetCartItemsIds(items: seq<CartItem>) returns (r: Result<seq<int>>)
    ensures r.Success? <==> forall i :: 0 <= i < |items| ==> items[i].quantity > 0
    ensures r.Success? ==> |r.value| == |items|
    ensures r.Success? ==> forall i :: 0 <= i < |items| ==> r.value[i] == items[i].productId
    ensures r.Failure? ==> exists k :: FirstInvalid(items, k) && r.error == InvalidQuantity(items[k].productId)
  {
    var productIds := new int[|items|];
    var i := 0;
    while i < |items|
      invariant 0 <= i <= |items|
      invariant forall j :: 0 <= j < i ==> items[j].quantity > 0 && productIds[j] == items[j].productId
    {
      if items[i].quantity <= 0 {
        assert FirstInvalid(items, i);
        return Failure(InvalidQuantity(items[i].productId));
      }
      productIds[i] := items[i].productId;
      i := i + 1;
    }
    return Success(productIds[..]);
  }

  method CheckIfItemInStock(items: seq<CartItem>, productMap: map<int, Product>) returns (err: Outcome)
    ensures err == StockCheck(items, productMap)
    ensures items == [] ==> err == Fail(EmptyCart)
  {
    if |items| == 0 {
      return Fail(EmptyCart);
    }
    var i := 0;
    while i < |items|
      invariant 0 <= i <= |items|
      invariant FirstShortage(items, productMap) == FirstShortage(items[i..], productMap)
    {
      var item := items[i];
      if item.productId !in productMap {
        return Fail(ProductNotFound(item.productId));
      }
      if productMap[item.productId].quantity < item.quantity {
        return Fail(OutOfStock(item.productId));
      }
      assert items[i..][1..] == items[i + 1..];
      i := i + 1;
    }
    return Pass;
  }

  method CalculateTotalPrice(items: seq<CartItem>, productMap: map<int, Product>) returns (totalPrice: int)
    ensures totalPrice == TotalPrice(items, productMap)
  {
    totalPrice := 0;
    for i := 0 to |items|
      invariant totalPrice == TotalPrice(items[..i], productMap)
    {
      var product := Lookup(productMap, items[i].productId);
      assert items[..i + 1][..i] == items[..i];
      totalPrice := totalPrice + product.price * items[i].quantity;
    }
    assert items[..|items|] == items;
  }

  /** The map of service.go:23-26, built entry by entry. */
  method BuildProductMap(products: seq<Product>) returns (productMap: map<int, Product>)
    ensures productMap == ProductMap(products)
  {
    productMap := map[];
    for i := 0 to |products|
      invariant productMap == ProductMap(products[..i])
    {
      assert products[..i + 1][..i] == products[..i];
      productMap := productMap[products[i].id := products[i]];
    }
    assert products[..|products|] == products;
  }

  /** The cart handler, holding the two stores it writes to. */
  class Handler {
    const productStore: ProductStore
    const store: OrderStore

    constructor (productStore: ProductStore, store: OrderStore)
      ensures this.productStore == productStore && this.store == store
    {
      this.productStore := productStore;
      this.store := store;
    }

    /** Checks out `items` against the snapshot `products` for user `userId`.
        Errors of `UpdateProduct` and `CreateOrderItem` are ignored, as the code does. */
    method CreateOrder(products: seq<Product>, items: seq<CartItem>, userId: int)
      returns (orderId: int, totalPrice: int, err: Outcome)
      requires productStore.Valid()
      modifies productStore, store
      ensures productStore.Valid()
      // A cart that fails the stock check reaches neither store.
      ensures var productMap := ProductMap(products);
        StockCheck(items, productMap).Fail? ==>
          && orderId == 0 && totalPrice == 0 && err == StockCheck(items, productMap)
          && unchanged(productStore) && unchanged(store)
      // Otherwise one write-back per item, in item order, each from the snapshot.
      ensures var productMap, n := ProductMap(products), |old(productStore.log)|;
        StockCheck(items, productMap).Pass? ==>
          && |productStore.log| == n + |items|
          && productStore.log[..n] == old(productStore.log)
          && WroteBack(productStore.log[n..], items, productMap)
          && productStore.products == ApplyUpdates(old(productStore.products), productStore.log[n..])
      // Otherwise exactly one order is submitted, carrying the cart's total.
      ensures var productMap := ProductMap(products);
        StockCheck(items, productMap).Pass? ==>
          store.orderLog == old(store.orderLog) + [Attempt(NewOrder(userId, TotalPrice(items, productMap)), err.Pass?)]
      // A failed order insert is returned; it stores no order and no line item.
      ensures StockCheck(items, ProductMap(products)).Pass? && err.Fail? ==>
        && err == Fail(StoreFailure) && orderId == 0 && totalPrice == 0
        && store.orders == old(store.orders) && store.nextId == old(store.nextId)
        && store.orderItems == old(store.orderItems) && store.itemLog == old(store.itemLog)
      // Otherwise the order is recorded, followed by one line-item call per item.
      ensures var productMap, m := ProductMap(products), |old(store.itemLog)|;
        StockCheck(items, productMap).Pass? && err.Pass? ==>
          && orderId == old(store.nextId) && store.nextId == orderId + 1
          && totalPrice == TotalPrice(items, productMap)
          && store.orders == old(store.orders) + [NewOrder(userId, totalPrice).(id := orderId)]
          && |store.itemLog| == m + |items|
          && store.itemLog[..m] == old(store.itemLog)
          && InsertedLineItems(store.itemLog[m..], items, productMap, orderId)
          && store.orderItems == old(store.orderItems) + Stored(store.itemLog[m..])
    {
      var productMap := BuildProductMap(products);

      err := CheckIfItemInStock(items, productMap);
      if err.Fail? {
        return 0, 0, err;
      }

      totalPrice := CalculateTotalPrice(items, productMap);

      UpdateStock(items, productMap);

      orderId, err := store.CreateOrder(NewOrder(userId, totalPrice));
      if err.Fail? {
        return 0, 0, err;
      }

      CreateOrderItems(items, productMap, orderId);
    }

    /** The write-back loop of service.go:37-42: one `UpdateProduct` per item,
        each starting from the snapshot; the errors are dropped. */
    method UpdateStock(items: seq<CartItem>, productMap: map<int, Product>)
      requires productStore.Valid()
      modifies productStore
      ensures productStore.Valid()
      ensures var n := |old(productStore.log)|;
        && |productStore.log| == n + |items|
        && productStore.log[..n] == old(productStore.log)
        && WroteBack(productStore.log[n..], items, productMap)
        && productStore.products == ApplyUpdates(old(productStore.products), productStore.log[n..])
    {
      ghost var log0, table0 := productStore.log, productStore.products;
      ghost var written: seq<Attempt<Product>> := [];
      for j := 0 to |items|
        invariant productStore.Valid()
        invariant productStore.log == log0 + written
        invariant |written| == j
        invariant forall k :: 0 <= k < j ==> written[k].request == WriteBack(items[k], productMap)
        invariant productStore.products == ApplyUpdates(table0, written)
      {
        var product := Lookup(productMap, items[j].productId);
        product := product.(quantity := Wrap64(product.quantity - items[j].quantity));
        var ignored := productStore.UpdateProduct(product);
        ApplyUpdatesSnoc(table0, written, Attempt(product, ignored.Pass?));
        written := written + [Attempt(product, ignored.Pass?)];
      }
      assert productStore.log[|log0|..] == written;
    }

    /** The line-item loop of service.go:56-63: one `CreateOrderItem` per item,
        at the snapshot's price; the errors are dropped. */
    method CreateOrderItems(items: seq<CartItem>, productMap: map<int, Product>, orderId: int)
      modifies store
      ensures var m := |old(store.itemLog)|;
        && |store.itemLog| == m + |items|
        && store.itemLog[..m] == old(store.itemLog)
        && InsertedLineItems(store.itemLog[m..], items, productMap, orderId)
        && store.orderItems == old(store.orderItems) + Stored(store.itemLog[m..])
      ensures store.orders == old(store.orders) && store.nextId == old(store.nextId)
      ensures store.orderLog == old(store.orderLog)
    {
      ghost var itemLog0, rows0 := store.itemLog, store.orderItems;
      ghost var sent: seq<Attempt<OrderItem>> := [];
      for j := 0 to |items|
        invariant store.itemLog == itemLog0 + sent
        invariant |sent| == j
        invariant forall k :: 0 <= k < j ==> sent[k].request == LineItem(items[k], productMap, orderId)
        invariant store.orderItems == rows0 + Stored(sent)
        invariant store.orders == old(store.orders) && store.nextId == old(store.nextId)
        invariant store.orderLog == old(store.orderLog)
      {
        var item := OrderItem(0, orderId, items[j].productId, items[j].quantity,
                              Lookup(productMap, items[j].productId).price, "");
        var ignored := store.CreateOrderItem(item);
        StoredSnoc(sent, Attempt(item, ignored.Pass?));
        sent := sent + [Attempt(item, ignored.Pass?)];
      }
      assert store.itemLog[|itemLog0|..] == sent;
    }
  }
}
